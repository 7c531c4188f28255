/** The href filter and the fragment stripping that the crawler applies to
    every anchor before it is recorded (src/lib/crawler.ts). */
module Urls {
  /** The two fields of a WHATWG `URL` object that the crawler reads. */
  datatype Url = Url(href: string, hostname: string)

  /** `s.startsWith(p)`. */
  predicate StartsWith(s: string, p: string) {
    |p| <= |s| && s[..|p|] == p
  }

  /** An href that the crawler drops before resolving it: empty, a pure
      fragment, or a mailto:, javascript: or tel: link. The test is on the
      raw attribute text and is case-sensitive. */
  predicate Skipped(href: string)
    ensures href == [] || href[0] == '#' ==> Skipped(href)
    ensures href != [] && href[0] !in "#mjt" ==> !Skipped(href)
  {
    href == ""
    || StartsWith(href, "#")
    || StartsWith(href, "mailto:")
    || StartsWith(href, "javascript:")
    || StartsWith(href, "tel:")
  }

  /** The serialisation of a URL after `u.hash = ""`: everything before the
      first '#'. A serialised URL carries no '#' before its fragment, so
      cutting at the first '#' removes exactly the fragment. */
  function StripFragment(s: string): (r: string)
    ensures '#' !in r
    ensures r <= s
    ensures |r| < |s| ==> s[|r|] == '#'
  {
    if s == [] || s[0] == '#' then [] else [s[0]] + StripFragment(s[1..])
  }

  /** A string that has no '#' is its own fragment-free form. */
  lemma {:induction false} StripFragmentFixed(s: string)
    requires '#' !in s
    ensures StripFragment(s) == s
  {
    if s != [] {
      assert s[0] != '#';
      assert '#' !in s[1..];
      StripFragmentFixed(s[1..]);
      assert s == [s[0]] + s[1..];
    }
  }

  /** Fragment variants of one resource, `/p#a` and `/p#b`, and the resource
      itself, all strip to the same key. */
  lemma {:induction false} FragmentVariantsFold(base: string, f1: string, f2: string)
    requires '#' !in base
    ensures StripFragment(base + "#" + f1) == base
    ensures StripFragment(base + "#" + f2) == StripFragment(base + "#" + f1)
    ensures StripFragment(base) == base
  {
    StripFragmentFixed(base);
    StripPastBase(base, "#" + f1);
    StripPastBase(base, "#" + f2);
    assert base + "#" + f1 == base + ("#" + f1);
    assert base + "#" + f2 == base + ("#" + f2);
  }

  lemma {:induction false} StripPastBase(base: string, rest: string)
    requires '#' !in base
    requires rest != [] && rest[0] == '#'
    ensures StripFragment(base + rest) == base
  {
    if base == [] {
      assert base + rest == rest;
    } else {
      assert (base + rest)[0] == base[0];
      assert (base + rest)[1..] == base[1..] + rest;
      assert '#' !in base[1..];
      StripPastBase(base[1..], rest);
      assert base == [base[0]] + base[1..];
    }
  }
}
