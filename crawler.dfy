/** The crawl-and-check engine `crawlSite` (src/lib/crawler.ts).

    Phase 1 is a bounded breadth-first crawl over a FIFO queue of page URLs,
    a set of visited pages and an insertion-ordered map from normalised link
    URL to the first page, anchor text and link type it was seen with.
    Phase 2 walks that map in insertion order and emits one `LinkResult`
    per entry.

    The network and the HTML and URL libraries are oracles in a `World`:
    a crawl is a function of the world, the root URL and the page budget.
    `CrawlSpec` states that function step by step; the method `CrawlSite`
    is the loop program of `crawlSite`, proved to compute it. */
module Crawler {
  import opened Wrappers
  import opened Urls
  import opened AnchorText

  /** One `a[href]` element of a page: its raw `href` attribute and its
      text content. */
  datatype Anchor = Anchor(href: string, text: string)

  /** The answer to a HEAD probe: the status code and the `Location` header
      (`None` when the header is absent). */
  datatype Response = Response(status: int, location: Option<string>)

  /** The outside world as the engine sees it.
      - `parse(s)` is `new URL(s)`, `None` when it throws;
      - `resolve(href, base)` is `new URL(href, base)`, `None` when it throws;
      - `page(url)` is the GET request, which follows redirects, with the
        `res.ok` and `text/html` checks and the extraction of every
        `a[href]`: `None` when the request fails, the final status is not
        2xx or the content is not HTML;
      - `redirected(url)` says whether that GET followed a redirect before
        its final answer (`res.redirected`); the code never asks it;
      - `probe(url)` is the HEAD request with manual redirects: `None` when
        it times out or fails at the transport level. */
  datatype World = World(
    parse: string -> Option<Url>,
    resolve: (string, string) -> Option<Url>,
    page: string -> Option<seq<Anchor>>,
    redirected: string -> bool,
    probe: string -> Option<Response>)

  datatype LinkType = Internal | External

  datatype Status = Ok | Broken | Redirect | Timeout

  /** `LinkResult` without its wall-clock `checked_at`: `linkUrl`,
      `sourcePage`, `statusCode`, `status`, `redirectTo`, `anchorText` and
      `linkType` stand for `link_url`, `source_page`, `status_code`,
      `status`, `redirect_to`, `anchor_text` and `link_type`. */
  datatype LinkResult = LinkResult(
    linkUrl: string,
    sourcePage: string,
    statusCode: Option<int>,
    status: Status,
    redirectTo: Option<string>,
    anchorText: string,
    linkType: LinkType)

  /** The value `allLinks` maps a link URL to. */
  datatype LinkInfo = LinkInfo(source: string, text: string, linkType: LinkType)

  /** One anchor that survived the filter and resolved: its fragment-free
      URL and what `allLinks` would store for it. */
  datatype Sighting = Sighting(key: string, info: LinkInfo)

  /** The state of phase 1. `toVisit`, `visited`, and `order` with `links`
      (the insertion-ordered `allLinks`: its keys in insertion order and its
      contents) are the variables of `crawlSite`; `fetched`, the pages requested,
      `loaded`, the pages whose GET gave an HTML page without following a
      redirect, and `seen`, every anchor that survived normalisation, are
      observations of the run. */
  datatype Frontier = Frontier(
    toVisit: seq<string>,
    visited: set<string>,
    order: seq<string>,
    links: map<string, LinkInfo>,
    fetched: seq<string>,
    loaded: set<string>,
    seen: seq<Sighting>)

  /** `order` lists the keys of `links`, each once. */
  predicate OrderMatches(fr: Frontier) {
    && NoDup(fr.order)
    && (forall k :: k in fr.order ==> k in fr.links)
    && (forall k :: k in fr.links ==> k in fr.order)
  }

  /** The state before the crawl loop: only the root URL, as given, is
      queued. */
  function Start(siteUrl: string): (fr: Frontier)
    ensures OrderMatches(fr)
  {
    Frontier([siteUrl], {}, [], map[], [], {}, [])
  }

  /** What one anchor on `pageUrl` contributes, if anything: the href
      filter, resolution against the page, the fragment cut, the trimmed
      text and the internal/external test on the host name. */
  function Sight(w: World, host: string, pageUrl: string, a: Anchor): (r: Option<Sighting>)
    ensures Skipped(a.href) ==> r.None?
    ensures w.resolve(a.href, pageUrl).None? ==> r.None?
    ensures r.Some? ==> '#' !in r.value.key && r.value.info.source == pageUrl
  {
    if Skipped(a.href) then None
    else match w.resolve(a.href, pageUrl)
      case None => None
      case Some(u) =>
        Some(Sighting(StripFragment(u.href),
                      LinkInfo(pageUrl, StoredText(a.text),
                               if u.hostname == host then Internal else External)))
  }

  /** Take in one sighting: queue its URL if it is internal and not yet
      visited, and record it unless its URL is already a key of `allLinks`
      (first seen wins). */
  function Absorb(fr: Frontier, s: Sighting): (r: Frontier)
    ensures r.visited == fr.visited && r.fetched == fr.fetched && r.loaded == fr.loaded
    ensures OrderMatches(fr) ==> OrderMatches(r)
  {
    fr.(toVisit := if s.info.linkType == Internal && s.key !in fr.visited
                   then fr.toVisit + [s.key] else fr.toVisit,
        order := if s.key in fr.links then fr.order else fr.order + [s.key],
        links := if s.key in fr.links then fr.links else fr.links[s.key := s.info],
        seen := fr.seen + [s])
  }

  /** The callback run for one anchor of `pageUrl`. */
  function RecordAnchor(w: World, host: string, fr: Frontier, pageUrl: string, a: Anchor): (r: Frontier)
    ensures r.visited == fr.visited && r.fetched == fr.fetched && r.loaded == fr.loaded
    ensures OrderMatches(fr) ==> OrderMatches(r)
  {
    match Sight(w, host, pageUrl, a)
    case None => fr
    case Some(s) => Absorb(fr, s)
  }

  /** The callback run over the anchors of one page, in document order. */
  function RecordAnchors(w: World, host: string, fr: Frontier, pageUrl: string, anchors: seq<Anchor>): (r: Frontier)
    ensures r.visited == fr.visited && r.fetched == fr.fetched && r.loaded == fr.loaded
    ensures OrderMatches(fr) ==> OrderMatches(r)
    decreases |anchors|
  {
    if anchors == [] then fr
    else RecordAnchor(w, host, RecordAnchors(w, host, fr, pageUrl, anchors[..|anchors| - 1]),
                      pageUrl, anchors[|anchors| - 1])
  }

  /** One turn of the crawl loop: take the head of the queue; drop it if it
      was visited; otherwise mark it visited before fetching it, and record
      its anchors if the fetch gave an HTML page, noting the page as loaded
      when no redirect was followed. */
  function Visit(w: World, host: string, fr: Frontier): (r: Frontier)
    requires fr.toVisit != []
    ensures fr.toVisit[0] in fr.visited ==> r == fr.(toVisit := fr.toVisit[1..])
    ensures fr.toVisit[0] !in fr.visited ==>
              r.visited == fr.visited + {fr.toVisit[0]} && r.fetched == fr.fetched + [fr.toVisit[0]]
    ensures fr.toVisit[0] !in fr.visited ==>
              r.loaded == fr.loaded + (if w.page(fr.toVisit[0]).Some? && !w.redirected(fr.toVisit[0])
                                       then {fr.toVisit[0]} else {})
    ensures OrderMatches(fr) ==> OrderMatches(r)
  {
    var pageUrl := fr.toVisit[0];
    var rest := fr.(toVisit := fr.toVisit[1..]);
    if pageUrl in fr.visited then rest
    else
      var marked := rest.(visited := fr.visited + {pageUrl}, fetched := fr.fetched + [pageUrl]);
      match w.page(pageUrl)
      case None => marked
      case Some(anchors) =>
        var r := RecordAnchors(w, host, marked, pageUrl, anchors);
        if w.redirected(pageUrl) then r else r.(loaded := r.loaded + {pageUrl})
  }

  /** Turns of the crawl loop for as long as the queue is not empty and
      fewer than `maxPages` pages are visited. */
  function Phase1(w: World, host: string, maxPages: int, fr: Frontier): (r: Frontier)
    ensures OrderMatches(fr) ==> OrderMatches(r)
    decreases (if |fr.visited| < maxPages then maxPages - |fr.visited| else 0), |fr.toVisit|
  {
    if fr.toVisit == [] || |fr.visited| >= maxPages then fr
    else Phase1(w, host, maxPages, Visit(w, host, fr))
  }

  /** The status a completed probe gets from its code. */
  predicate InBand(code: int, s: Status) {
    match s
    case Ok => code < 300
    case Redirect => 300 <= code < 400
    case Broken => 400 <= code
    case Timeout => false
  }

  /** `ok` unless the code is in 300-399 (`redirect`) or at least 400
      (`broken`); codes below 300 are `ok`. */
  function Classify(code: int): (s: Status)
    ensures InBand(code, s)
    ensures forall t :: InBand(code, t) ==> t == s
  {
    if 300 <= code < 400 then Redirect
    else if code >= 400 then Broken
    else Ok
  }

  /** `res.headers.get("location") || undefined`: an absent or empty header
      gives no redirect target. */
  function RedirectTarget(location: Option<string>): (r: Option<string>)
    ensures r.Some? ==> r == location && r.value != ""
    ensures location.Some? && location.value != "" ==> r == location
  {
    if location.Some? && location.value != "" then location else None
  }

  /** An internal link whose URL is a visited page is answered without a
      probe. */
  predicate ShortCircuits(visited: set<string>, linkUrl: string, info: LinkInfo) {
    info.linkType == Internal && linkUrl in visited
  }

  /** What phase 2 learns about one link: `status_code`, `status` and
      `redirect_to`. */
  datatype Check = Check(code: Option<int>, status: Status, redirectTo: Option<string>)

  /** The check of one entry of `allLinks`: a short-circuited link is `ok`
      with code 200; otherwise a completed probe gives its code, the band
      of the code and its redirect target, and a failed one `timeout` with
      no code. */
  function CheckLink(w: World, visited: set<string>, linkUrl: string, info: LinkInfo): (r: Check)
    ensures r.status == Timeout <==> r.code.None?
    ensures r.code.Some? ==> InBand(r.code.value, r.status)
    ensures !ShortCircuits(visited, linkUrl, info) && r.code.Some? ==>
              w.probe(linkUrl).Some? && r.code == Some(w.probe(linkUrl).value.status)
  {
    if ShortCircuits(visited, linkUrl, info) then Check(Some(200), Ok, None)
    else
      match w.probe(linkUrl)
      case Some(res) => Check(Some(res.status), Classify(res.status), RedirectTarget(res.location))
      case None => Check(None, Timeout, None)
  }

  /** The result recorded for one entry of `allLinks`. */
  function Verdict(w: World, visited: set<string>, linkUrl: string, info: LinkInfo): (r: LinkResult)
    ensures r.linkUrl == linkUrl && r.sourcePage == info.source
    ensures r.anchorText == info.text && r.linkType == info.linkType
    ensures r.status == Timeout <==> r.statusCode.None?
  {
    var c := CheckLink(w, visited, linkUrl, info);
    LinkResult(linkUrl, info.source, c.code, c.status, c.redirectTo, info.text, info.linkType)
  }

  /** Phase 2 over the entries `keys` of `links`, in order. */
  function Results(w: World, visited: set<string>, links: map<string, LinkInfo>, keys: seq<string>): (r: seq<LinkResult>)
    requires forall k :: k in keys ==> k in links
    ensures |r| == |keys|
    decreases |keys|
  {
    if keys == [] then []
    else
      var k := keys[|keys| - 1];
      Results(w, visited, links, keys[..|keys| - 1]) + [Verdict(w, visited, k, links[k])]
  }

  /** The arguments `onProgress` receives over `n` results: 1, 2, ..., n. */
  function Ascending(n: nat): seq<nat> {
    if n == 0 then [] else Ascending(n - 1) + [n]
  }

  /** What `crawlSite` settles to: a rejected promise when the root URL does
      not parse, otherwise the results, `pagesScanned`, and the arguments
      of the successive `onProgress` calls. */
  datatype CrawlOutcome =
    | InvalidRoot
    | Crawled(results: seq<LinkResult>, pagesScanned: nat, progress: seq<nat>)

  /** The specification of `crawlSite(siteUrl, maxPages, onProgress)`. */
  function CrawlSpec(w: World, siteUrl: string, maxPages: int): (r: CrawlOutcome)
    ensures r.InvalidRoot? <==> w.parse(siteUrl).None?
  {
    match w.parse(siteUrl)
    case None => InvalidRoot
    case Some(base) =>
      var fr := Phase1(w, base.hostname, maxPages, Start(siteUrl));
      var results := Results(w, fr.visited, fr.links, fr.order);
      Crawled(results, |fr.visited|, Ascending(|results|))
  }

  /** `crawlSite` as the loop program it is. */
  method CrawlSite(w: World, siteUrl: string, maxPages: int) returns (res: CrawlOutcome)
    ensures res == CrawlSpec(w, siteUrl, maxPages)
  {
    var baseUrl := w.parse(siteUrl);
    if baseUrl.None? {
      return InvalidRoot;
    }
    var visited, order, links := CrawlPages(w, baseUrl.value.hostname, siteUrl, maxPages);
    var results, progress := CheckLinks(w, visited, links, order);
    res := Crawled(results, |visited|, progress);
  }

  /** Phase 1 of `crawlSite`: the crawl loop. */
  method CrawlPages(w: World, host: string, siteUrl: string, maxPages: int)
    returns (visited: set<string>, order: seq<string>, links: map<string, LinkInfo>)
    ensures var fr := Phase1(w, host, maxPages, Start(siteUrl));
            visited == fr.visited && order == fr.order && links == fr.links
  {
    var toVisit: seq<string> := [siteUrl];
    visited, order, links := {}, [], map[];
    ghost var fetched: seq<string> := [];
    ghost var loaded: set<string> := {};
    ghost var seen: seq<Sighting> := [];
    ghost var final := Phase1(w, host, maxPages, Start(siteUrl));
    while toVisit != [] && |visited| < maxPages
      invariant OrderMatches(Frontier(toVisit, visited, order, links, fetched, loaded, seen))
      invariant Phase1(w, host, maxPages, Frontier(toVisit, visited, order, links, fetched, loaded, seen)) == final
      decreases (if |visited| < maxPages then maxPages - |visited| else 0), |toVisit|
    {
      ghost var before := Frontier(toVisit, visited, order, links, fetched, loaded, seen);
      var pageUrl := toVisit[0];
      toVisit := toVisit[1..];
      if pageUrl in visited {
        continue;
      }
      visited := visited + {pageUrl};
      fetched := fetched + [pageUrl];
      var fetchedPage := w.page(pageUrl);
      if fetchedPage.Some? {
        toVisit, order, links, seen :=
          CollectLinks(w, host, pageUrl, fetchedPage.value, toVisit, visited, order, links, fetched, loaded, seen);
        if !w.redirected(pageUrl) {
          loaded := loaded + {pageUrl};
        }
      }
      assert Frontier(toVisit, visited, order, links, fetched, loaded, seen) == Visit(w, host, before);
    }
  }

  /** The `$("a[href]").each(...)` callback over the anchors of one fetched
      page. */
  method CollectLinks(w: World, host: string, pageUrl: string, anchors: seq<Anchor>,
                      toVisit0: seq<string>, visited: set<string>, order0: seq<string>,
                      links0: map<string, LinkInfo>, ghost fetched: seq<string>,
                      ghost loaded: set<string>, ghost seen0: seq<Sighting>)
    returns (toVisit: seq<string>, order: seq<string>, links: map<string, LinkInfo>, ghost seen: seq<Sighting>)
    ensures var r := RecordAnchors(w, host, Frontier(toVisit0, visited, order0, links0, fetched, loaded, seen0), pageUrl, anchors);
            toVisit == r.toVisit && order == r.order && links == r.links
    ensures seen == RecordAnchors(w, host, Frontier(toVisit0, visited, order0, links0, fetched, loaded, seen0), pageUrl, anchors).seen
  {
    ghost var start := Frontier(toVisit0, visited, order0, links0, fetched, loaded, seen0);
    toVisit, order, links, seen := toVisit0, order0, links0, seen0;
    var i := 0;
    while i < |anchors|
      invariant 0 <= i <= |anchors|
      invariant Frontier(toVisit, visited, order, links, fetched, loaded, seen)
                == RecordAnchors(w, host, start, pageUrl, anchors[..i])
    {
      var a := anchors[i];
      if !Skipped(a.href) {
        var resolved := w.resolve(a.href, pageUrl);
        if resolved.Some? {
          var u := resolved.value;
          var fullUrl := StripFragment(u.href);
          var text := StoredText(a.text);
          var isInternal := u.hostname == host;
          var info := LinkInfo(pageUrl, text, if isInternal then Internal else External);
          if isInternal && fullUrl !in visited {
            toVisit := toVisit + [fullUrl];
          }
          if fullUrl !in links {
            links := links[fullUrl := info];
            order := order + [fullUrl];
          }
          seen := seen + [Sighting(fullUrl, info)];
        }
      }
      assert anchors[..i + 1][..i] == anchors[..i];
      i := i + 1;
    }
    assert anchors[..|anchors|] == anchors;
  }

  /** Phase 2 of `crawlSite`: one result per entry of `allLinks`, in
      insertion order, reporting progress after each. */
  method CheckLinks(w: World, visited: set<string>, links: map<string, LinkInfo>, order: seq<string>)
    returns (results: seq<LinkResult>, progress: seq<nat>)
    requires forall k :: k in order ==> k in links
    ensures results == Results(w, visited, links, order)
    ensures progress == Ascending(|order|)
  {
    results, progress := [], [];
    for j := 0 to |order|
      invariant results == Results(w, visited, links, order[..j])
      invariant progress == Ascending(j)
    {
      var linkUrl := order[j];
      var info := links[linkUrl];
      var r: LinkResult;
      if info.linkType == Internal && linkUrl in visited {
        r := LinkResult(linkUrl, info.source, Some(200), Ok, None, info.text, info.linkType);
      } else {
        var outcome := w.probe(linkUrl);
        if outcome.Some? {
          var code := outcome.value.status;
          var status := Ok;
          if 300 <= code < 400 {
            status := Redirect;
          } else if code >= 400 {
            status := Broken;
          }
          r := LinkResult(linkUrl, info.source, Some(code), status,
                          RedirectTarget(outcome.value.location), info.text, info.linkType);
        } else {
          r := LinkResult(linkUrl, info.source, None, Timeout, None, info.text, info.linkType);
        }
      }
      assert order[..j + 1][..j] == order[..j];
      results := results + [r];
      progress := progress + [|results|];
    }
    assert order[..|order|] == order;
  }
}
