/** The anchor text the crawler stores: `$(el).text().trim().substring(0, 100)`
    (src/lib/crawler.ts:59). */
module AnchorText {
  /** Longest anchor text kept. */
  const MaxAnchorText: nat := 100

  /** The characters `String.prototype.trim` removes: ECMAScript WhiteSpace
      (tab, vertical tab, form feed, space, no-break space, byte order mark
      and the Unicode space separators) and LineTerminator. */
  predicate IsJsSpace(c: char) {
    c == '\t' || c == '\n' || c == '\U{000B}' || c == '\U{000C}' || c == '\r'
    || c == ' ' || c == '\U{00A0}' || c == '\U{1680}'
    || ('\U{2000}' <= c <= '\U{200A}')
    || c == '\U{2028}' || c == '\U{2029}' || c == '\U{202F}' || c == '\U{205F}'
    || c == '\U{3000}' || c == '\U{FEFF}'
  }

  /** The leading whitespace of `s` from position `i` on ends at `r`. */
  function SpaceEnd(s: string, i: nat): (r: nat)
    requires i <= |s|
    ensures i <= r <= |s|
    ensures forall k :: i <= k < r ==> IsJsSpace(s[k])
    ensures r < |s| ==> !IsJsSpace(s[r])
    decreases |s| - i
  {
    if i < |s| && IsJsSpace(s[i]) then SpaceEnd(s, i + 1) else i
  }

  /** Scanning back from `j`, the trailing whitespace of `s[lo..j]` starts
      at `r`. */
  function SpaceStart(s: string, lo: nat, j: nat): (r: nat)
    requires lo <= j <= |s|
    ensures lo <= r <= j
    ensures forall k :: r <= k < j ==> IsJsSpace(s[k])
    ensures lo < r ==> !IsJsSpace(s[r - 1])
    decreases j
  {
    if lo < j && IsJsSpace(s[j - 1]) then SpaceStart(s, lo, j - 1) else j
  }

  /** `s.trim()`: `s` without its leading and trailing whitespace. */
  function Trim(s: string): (r: string)
    ensures |r| <= |s|
    ensures r != [] ==> !IsJsSpace(r[0]) && !IsJsSpace(r[|r| - 1])
  {
    var lo := SpaceEnd(s, 0);
    s[lo..SpaceStart(s, lo, |s|)]
  }

  /** `s.trim()` is the infix of `s` left after cutting whitespace off both
      ends: everything cut off is whitespace, and the result neither starts
      nor ends with whitespace. */
  lemma TrimCutsOnlySpace(s: string)
    ensures exists lo, hi :: 0 <= lo <= hi <= |s| && Trim(s) == s[lo..hi]
              && (forall k :: 0 <= k < lo ==> IsJsSpace(s[k]))
              && (forall k :: hi <= k < |s| ==> IsJsSpace(s[k]))
    ensures Trim(s) != [] ==> !IsJsSpace(Trim(s)[0]) && !IsJsSpace(Trim(s)[|Trim(s)| - 1])
  {
    var lo := SpaceEnd(s, 0);
    var hi := SpaceStart(s, lo, |s|);
    if lo < |s| {
      // the scan back stops at the first non-space character at the latest
      assert !IsJsSpace(s[lo]);
      assert hi > lo;
    }
    assert Trim(s) == s[lo..hi];
  }

  /** The stored anchor text: the trimmed text, cut to its first 100
      characters. */
  function StoredText(text: string): (r: string)
    ensures r <= Trim(text)
    ensures |r| == if |Trim(text)| <= MaxAnchorText then |Trim(text)| else MaxAnchorText
    ensures r != [] ==> !IsJsSpace(r[0])
  {
    TrimCutsOnlySpace(text);
    var t := Trim(text);
    if |t| <= MaxAnchorText then t else t[..MaxAnchorText]
  }
}
