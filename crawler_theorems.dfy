/** The theorems about `crawlSite`: the page budget and the fetch log,
    one result per collected link with its attribution and status, the
    progress callback, the independence of phase 1 from the HEAD probe,
    and the FIFO discipline of the queue. */
module CrawlerTheorems {
  import opened Wrappers
  import opened Urls
  import opened AnchorText
  import opened Crawler
  import opened CrawlerProofs

  /** The state phase 1 ends in, for a root that parses. */
  function Crawled1(w: World, siteUrl: string, maxPages: int): Frontier
    requires w.parse(siteUrl).Some?
  {
    Phase1(w, w.parse(siteUrl).value.hostname, maxPages, Start(siteUrl))
  }

  lemma StartInv(w: World, host: string, siteUrl: string, maxPages: int)
    ensures CrawlInv(w, host, siteUrl, maxPages, Start(siteUrl))
  {
  }

  lemma {:induction false} Phase1KeepsFetches(w: World, host: string, maxPages: int, fr: Frontier)
    ensures fr.fetched <= Phase1(w, host, maxPages, fr).fetched
    decreases (if |fr.visited| < maxPages then maxPages - |fr.visited| else 0), |fr.toVisit|
  {
    if fr.toVisit != [] && |fr.visited| < maxPages {
      var v := Visit(w, host, fr);
      Phase1KeepsFetches(w, host, maxPages, v);
    }
  }

  /** Phase 1 fetches at most `maxPages` pages, each once; `pagesScanned`
      counts them; the root is fetched first and every other fetched page
      is the URL of a link sighted as internal; the loop stops with an
      empty queue or a spent budget. */
  lemma CrawlFetchesEachPageOnce(w: World, siteUrl: string, maxPages: int)
    requires w.parse(siteUrl).Some?
    ensures var fr := Crawled1(w, siteUrl, maxPages);
            && CrawlSpec(w, siteUrl, maxPages).pagesScanned == |fr.visited|
            && |fr.visited| <= Max0(maxPages)
            && (fr.toVisit == [] || |fr.visited| == Max0(maxPages))
            && NoDup(fr.fetched)
            && |fr.fetched| == |fr.visited|
            && (forall u :: u in fr.visited <==> u in fr.fetched)
            && (maxPages >= 1 ==> fr.fetched != [] && fr.fetched[0] == siteUrl)
            && (forall u :: u in fr.fetched ==> u == siteUrl || SightedInternal(fr.seen, u))
  {
    var host := w.parse(siteUrl).value.hostname;
    StartInv(w, host, siteUrl, maxPages);
    Phase1Keeps(w, host, siteUrl, maxPages, Start(siteUrl));
    if maxPages >= 1 {
      var v := Visit(w, host, Start(siteUrl));
      assert v.fetched == [siteUrl];
      Phase1KeepsFetches(w, host, maxPages, v);
    }
  }

  /** Phase 2 result `i` is the verdict on the `i`-th key. */
  lemma {:induction false} ResultsAt(w: World, visited: set<string>, links: map<string, LinkInfo>,
                                     keys: seq<string>, i: int)
    requires forall k :: k in keys ==> k in links
    requires 0 <= i < |keys|
    ensures Results(w, visited, links, keys)[i] == Verdict(w, visited, keys[i], links[keys[i]])
    decreases |keys|
  {
    var init := keys[..|keys| - 1];
    if i < |keys| - 1 {
      assert forall k :: k in init ==> k in keys;
      ResultsAt(w, visited, links, init, i);
    }
  }

  lemma FirstSightingExists(seen: seq<Sighting>, k: string)
    requires Sighted(seen, k)
    ensures exists j :: 0 <= j < |seen| && seen[j].key == k && FirstSighting(seen, j)
  {
    var i :| 0 <= i < |seen| && seen[i].key == k;
    var j := 0;
    while seen[j].key != k
      invariant 0 <= j <= i
      invariant forall m :: 0 <= m < j ==> seen[m].key != k
      decreases i - j
    {
      j := j + 1;
    }
    assert FirstSighting(seen, j);
  }

  /** What a stored entry says about the anchor it came from: the href
      passed the filter and resolved against the page, the key is the
      resolved URL without its fragment, the text is the trimmed and cut
      anchor text, and the link is internal exactly when its host name is
      the root's. */
  ghost predicate AnchorYields(w: World, host: string, pageUrl: string, a: Anchor, key: string, info: LinkInfo) {
    && !Skipped(a.href)
    && w.resolve(a.href, pageUrl).Some?
    && key == StripFragment(w.resolve(a.href, pageUrl).value.href)
    && info.source == pageUrl
    && info.text == StoredText(a.text)
    && (info.linkType == Internal <==> w.resolve(a.href, pageUrl).value.hostname == host)
  }

  lemma SightYields(w: World, host: string, pageUrl: string, a: Anchor, s: Sighting)
    requires Sight(w, host, pageUrl, a) == Some(s)
    ensures AnchorYields(w, host, pageUrl, a, s.key, s.info)
  {
  }

  /** The result for `r` carries what the first sighting of its URL carried. */
  ghost predicate FirstAttribution(seen: seq<Sighting>, r: LinkResult) {
    exists j :: 0 <= j < |seen| && FirstSighting(seen, j)
                && seen[j] == Sighting(r.linkUrl, LinkInfo(r.sourcePage, r.anchorText, r.linkType))
  }

  /** Phase 2 over an insertion-ordered map: one result per key, in order. */
  lemma ResultsFollowOrder(w: World, fr: Frontier)
    requires OrderMatches(fr)
    ensures var rs := Results(w, fr.visited, fr.links, fr.order);
            && |rs| == |fr.order|
            && (forall i :: 0 <= i < |rs| ==> rs[i] == Verdict(w, fr.visited, fr.order[i], fr.links[fr.order[i]]))
  {
    var rs := Results(w, fr.visited, fr.links, fr.order);
    forall i | 0 <= i < |rs|
      ensures rs[i] == Verdict(w, fr.visited, fr.order[i], fr.links[fr.order[i]])
    {
      ResultsAt(w, fr.visited, fr.links, fr.order, i);
    }
  }

  /** The link URLs of the results are the keys in insertion order: each
      key is reported, and no key twice. */
  lemma ResultsOnePerKey(w: World, fr: Frontier)
    requires OrderMatches(fr)
    ensures var rs := Results(w, fr.visited, fr.links, fr.order);
            && |rs| == |fr.order|
            && (forall i :: 0 <= i < |rs| ==> rs[i].linkUrl == fr.order[i])
            && (forall i, j :: 0 <= i < j < |rs| ==> rs[i].linkUrl != rs[j].linkUrl)
            && (forall k :: k in fr.links ==> exists i :: 0 <= i < |rs| && rs[i].linkUrl == k)
  {
    var rs := Results(w, fr.visited, fr.links, fr.order);
    ResultsFollowOrder(w, fr);
    forall i | 0 <= i < |rs| ensures rs[i].linkUrl == fr.order[i] {
      VerdictCarriesEntry(w, fr.visited, fr.order[i], fr.links[fr.order[i]]);
    }
    forall k | k in fr.links ensures exists i :: 0 <= i < |rs| && rs[i].linkUrl == k {
      var i :| 0 <= i < |fr.order| && fr.order[i] == k;
      assert rs[i].linkUrl == k;
    }
  }

  /** The fields a verdict copies from its entry of `allLinks`. */
  lemma VerdictCarriesEntry(w: World, visited: set<string>, k: string, info: LinkInfo)
    ensures var r := Verdict(w, visited, k, info);
            r.linkUrl == k && LinkInfo(r.sourcePage, r.anchorText, r.linkType) == info
  {
  }

  /** The status of one verdict agrees with its code, and comes from the
      short cut or from the probe. */
  lemma VerdictStatus(w: World, visited: set<string>, k: string, info: LinkInfo)
    ensures var r := Verdict(w, visited, k, info);
            && (r.status == Timeout <==> r.statusCode.None?)
            && (r.statusCode.Some? ==> InBand(r.statusCode.value, r.status))
            && (ShortCircuits(visited, k, info) ==>
                  r.statusCode == Some(200) && r.status == Ok && r.redirectTo == None)
            && (!ShortCircuits(visited, k, info) ==>
                  match w.probe(k)
                  case Some(res) =>
                    r.statusCode == Some(res.status) && r.redirectTo == RedirectTarget(res.location)
                  case None =>
                    r.status == Timeout && r.redirectTo == None)
  {
  }

  /** Under the crawl invariant, each entry of `allLinks` is its URL's first
      sighting, which came from an anchor of a fetched page. */
  lemma EntryAttributed(w: World, host: string, fr: Frontier, k: string)
    requires FirstSeenWins(fr) && SightingsFromPages(w, host, fr)
    requires k in fr.links
    ensures exists j :: 0 <= j < |fr.seen| && FirstSighting(fr.seen, j) && fr.seen[j] == Sighting(k, fr.links[k])
    ensures '#' !in k
    ensures fr.links[k].source in fr.visited && w.page(fr.links[k].source).Some?
    ensures exists a :: a in w.page(fr.links[k].source).value
                        && AnchorYields(w, host, fr.links[k].source, a, k, fr.links[k])
  {
    FirstSightingExists(fr.seen, k);
    var j :| 0 <= j < |fr.seen| && fr.seen[j].key == k && FirstSighting(fr.seen, j);
    var s := fr.seen[j];
    assert s == Sighting(k, fr.links[k]);
    assert FromAnchor(w, host, s);
    var a :| a in w.page(s.info.source).value && Sight(w, host, s.info.source, a) == Some(s);
    SightYields(w, host, s.info.source, a, s);
  }

  /** Phase 2 emits exactly one result per entry of `allLinks`, in
      insertion order; so link URLs are unique and fragment-free. */
  lemma CrawlResultsOnePerLink(w: World, siteUrl: string, maxPages: int)
    requires w.parse(siteUrl).Some?
    ensures var fr, rs := Crawled1(w, siteUrl, maxPages), CrawlSpec(w, siteUrl, maxPages).results;
            && |rs| == |fr.order|
            && (forall i :: 0 <= i < |rs| ==> rs[i].linkUrl == fr.order[i])
            && (forall i, j :: 0 <= i < j < |rs| ==> rs[i].linkUrl != rs[j].linkUrl)
            && (forall k :: k in fr.links ==> exists i :: 0 <= i < |rs| && rs[i].linkUrl == k)
            && (forall i :: 0 <= i < |rs| ==> '#' !in rs[i].linkUrl)
  {
    var host := w.parse(siteUrl).value.hostname;
    var fr := Crawled1(w, siteUrl, maxPages);
    var rs := Results(w, fr.visited, fr.links, fr.order);
    StartInv(w, host, siteUrl, maxPages);
    Phase1Keeps(w, host, siteUrl, maxPages, Start(siteUrl));
    ResultsOnePerKey(w, fr);
    forall i | 0 <= i < |rs| ensures '#' !in rs[i].linkUrl {
      EntryAttributed(w, host, fr, fr.order[i]);
    }
  }

  /** Each result is attributed to the first anchor, on a fetched page,
      whose href normalises to its URL. */
  lemma CrawlResultsAttributed(w: World, siteUrl: string, maxPages: int)
    requires w.parse(siteUrl).Some?
    ensures var fr, rs := Crawled1(w, siteUrl, maxPages), CrawlSpec(w, siteUrl, maxPages).results;
            forall i :: 0 <= i < |rs| ==>
              && FirstAttribution(fr.seen, rs[i])
              && rs[i].sourcePage in fr.visited
              && w.page(rs[i].sourcePage).Some?
              && exists a :: a in w.page(rs[i].sourcePage).value
                             && AnchorYields(w, w.parse(siteUrl).value.hostname, rs[i].sourcePage, a,
                                             rs[i].linkUrl,
                                             LinkInfo(rs[i].sourcePage, rs[i].anchorText, rs[i].linkType))
  {
    var host := w.parse(siteUrl).value.hostname;
    var fr := Crawled1(w, siteUrl, maxPages);
    var rs := Results(w, fr.visited, fr.links, fr.order);
    StartInv(w, host, siteUrl, maxPages);
    Phase1Keeps(w, host, siteUrl, maxPages, Start(siteUrl));
    assert CrawlSpec(w, siteUrl, maxPages).results == rs;
    forall i | 0 <= i < |rs|
      ensures FirstAttribution(fr.seen, rs[i])
      ensures rs[i].sourcePage in fr.visited && w.page(rs[i].sourcePage).Some?
      ensures exists a :: a in w.page(rs[i].sourcePage).value
                          && AnchorYields(w, host, rs[i].sourcePage, a, rs[i].linkUrl,
                                          LinkInfo(rs[i].sourcePage, rs[i].anchorText, rs[i].linkType))
    {
      ResultAttributed(w, host, fr, i);
    }
  }

  /** Result `i` of phase 2 is attributed to the first sighting of its
      URL, made by an anchor of a fetched page. */
  lemma ResultAttributed(w: World, host: string, fr: Frontier, i: int)
    requires OrderMatches(fr) && FirstSeenWins(fr) && SightingsFromPages(w, host, fr)
    requires 0 <= i < |fr.order|
    ensures var r := Results(w, fr.visited, fr.links, fr.order)[i];
            && FirstAttribution(fr.seen, r)
            && r.sourcePage in fr.visited && w.page(r.sourcePage).Some?
            && exists a :: a in w.page(r.sourcePage).value
                           && AnchorYields(w, host, r.sourcePage, a, r.linkUrl,
                                           LinkInfo(r.sourcePage, r.anchorText, r.linkType))
  {
    var k := fr.order[i];
    ResultsAt(w, fr.visited, fr.links, fr.order, i);
    VerdictCarriesEntry(w, fr.visited, k, fr.links[k]);
    EntryAttributed(w, host, fr, k);
  }

  /** Every result's status agrees with its code: `timeout` exactly when
      there is no code, otherwise the band of the code. An internal link to
      a visited page is `ok` with code 200 and no redirect target; every other
      link carries its probe's outcome: a completed probe gives its code, its
      band and its non-empty `Location` header, a failed probe gives
      `timeout` with no code. */
  lemma CrawlResultStatuses(w: World, siteUrl: string, maxPages: int)
    requires w.parse(siteUrl).Some?
    ensures var fr, rs := Crawled1(w, siteUrl, maxPages), CrawlSpec(w, siteUrl, maxPages).results;
            forall i :: 0 <= i < |rs| ==>
              && (rs[i].status == Timeout <==> rs[i].statusCode.None?)
              && (rs[i].statusCode.Some? ==> InBand(rs[i].statusCode.value, rs[i].status))
              && (rs[i].linkType == Internal && rs[i].linkUrl in fr.visited ==>
                    rs[i].statusCode == Some(200) && rs[i].status == Ok && rs[i].redirectTo == None)
              && (!(rs[i].linkType == Internal && rs[i].linkUrl in fr.visited) ==>
                    match w.probe(rs[i].linkUrl)
                    case Some(res) =>
                      rs[i].statusCode == Some(res.status) && rs[i].redirectTo == RedirectTarget(res.location)
                    case None =>
                      rs[i].status == Timeout && rs[i].redirectTo == None)
  {
    var fr := Crawled1(w, siteUrl, maxPages);
    var rs := Results(w, fr.visited, fr.links, fr.order);
    ResultsFollowOrder(w, fr);
    forall i | 0 <= i < |rs|
      ensures rs[i].status == Timeout <==> rs[i].statusCode.None?
      ensures rs[i].statusCode.Some? ==> InBand(rs[i].statusCode.value, rs[i].status)
      ensures rs[i].linkType == Internal && rs[i].linkUrl in fr.visited ==>
                rs[i].statusCode == Some(200) && rs[i].status == Ok && rs[i].redirectTo == None
      ensures !(rs[i].linkType == Internal && rs[i].linkUrl in fr.visited) ==>
                match w.probe(rs[i].linkUrl)
                case Some(res) =>
                  rs[i].statusCode == Some(res.status) && rs[i].redirectTo == RedirectTarget(res.location)
                case None =>
                  rs[i].status == Timeout && rs[i].redirectTo == None
    {
      var k := fr.order[i];
      VerdictCarriesEntry(w, fr.visited, k, fr.links[k]);
      VerdictStatus(w, fr.visited, k, fr.links[k]);
    }
  }

  lemma {:induction false} AscendingCounts(n: nat)
    ensures |Ascending(n)| == n
    ensures forall i :: 0 <= i < n ==> Ascending(n)[i] == i + 1
  {
    if n > 0 {
      AscendingCounts(n - 1);
    }
  }

  /** `onProgress` is called once per result with 1, 2, ..., n: strictly
      increasing, ending at the number of results. */
  lemma CrawlProgressCounts(w: World, siteUrl: string, maxPages: int)
    requires w.parse(siteUrl).Some?
    ensures var c := CrawlSpec(w, siteUrl, maxPages);
            && |c.progress| == |c.results|
            && (forall i :: 0 <= i < |c.progress| ==> c.progress[i] == i + 1)
            && (forall i, j :: 0 <= i < j < |c.progress| ==> c.progress[i] < c.progress[j])
  {
    AscendingCounts(|CrawlSpec(w, siteUrl, maxPages).results|);
  }

  /** Phase 1 never consults the probe oracle. */
  lemma {:induction false} RecordAnchorsIgnoresProbe(w: World, probe: string -> Option<Response>, host: string,
                                                     fr: Frontier, pageUrl: string, anchors: seq<Anchor>)
    ensures RecordAnchors(w.(probe := probe), host, fr, pageUrl, anchors) == RecordAnchors(w, host, fr, pageUrl, anchors)
    decreases |anchors|
  {
    if anchors != [] {
      RecordAnchorsIgnoresProbe(w, probe, host, fr, pageUrl, anchors[..|anchors| - 1]);
    }
  }

  lemma {:induction false} Phase1IgnoresProbe(w: World, probe: string -> Option<Response>, host: string,
                                              maxPages: int, fr: Frontier)
    ensures Phase1(w.(probe := probe), host, maxPages, fr) == Phase1(w, host, maxPages, fr)
    decreases (if |fr.visited| < maxPages then maxPages - |fr.visited| else 0), |fr.toVisit|
  {
    if fr.toVisit != [] && |fr.visited| < maxPages {
      var p := fr.toVisit[0];
      if p !in fr.visited && w.page(p).Some? {
        var marked := fr.(toVisit := fr.toVisit[1..], visited := fr.visited + {p}, fetched := fr.fetched + [p]);
        RecordAnchorsIgnoresProbe(w, probe, host, marked, p, w.page(p).value);
      }
      assert Visit(w.(probe := probe), host, fr) == Visit(w, host, fr);
      Phase1IgnoresProbe(w, probe, host, maxPages, Visit(w, host, fr));
    }
  }

  /** No probe is issued for an internal link to a visited page: whatever
      the probe oracle answers, such a result is the same, and the crawl
      visits the same pages and reports the same links. */
  lemma ShortCircuitedLinksAreNotProbed(w: World, probe: string -> Option<Response>, siteUrl: string, maxPages: int)
    requires w.parse(siteUrl).Some?
    ensures var a, b := CrawlSpec(w, siteUrl, maxPages), CrawlSpec(w.(probe := probe), siteUrl, maxPages);
            var visited := Crawled1(w, siteUrl, maxPages).visited;
            && b.Crawled?
            && a.pagesScanned == b.pagesScanned
            && |a.results| == |b.results|
            && forall i :: 0 <= i < |a.results| ==>
                 && a.results[i].linkUrl == b.results[i].linkUrl
                 && (a.results[i].linkType == Internal && a.results[i].linkUrl in visited ==>
                       a.results[i] == b.results[i])
  {
    var host := w.parse(siteUrl).value.hostname;
    var w2 := w.(probe := probe);
    Phase1IgnoresProbe(w, probe, host, maxPages, Start(siteUrl));
    var fr := Crawled1(w, siteUrl, maxPages);
    assert Crawled1(w2, siteUrl, maxPages) == fr;
    ResultsFollowOrder(w, fr);
    ResultsFollowOrder(w2, fr);
  }

  /** Scenario: the root page cannot be fetched. It still counts as
      scanned and nothing is reported. */
  lemma RootUnreachable(w: World, siteUrl: string, maxPages: int)
    requires w.parse(siteUrl).Some? && w.page(siteUrl).None? && maxPages >= 1
    ensures CrawlSpec(w, siteUrl, maxPages) == Crawled([], 1, [])
  {
    var host := w.parse(siteUrl).value.hostname;
    var v := Visit(w, host, Start(siteUrl));
    assert v == Frontier([], {siteUrl}, [], map[], [siteUrl], {}, []);
    assert Phase1(w, host, maxPages, Start(siteUrl)) == v;
  }

  /** Scenario: a budget of one page. Only the root is scanned, so every
      link other than the root URL itself is probed. */
  lemma SinglePageBudget(w: World, siteUrl: string)
    requires w.parse(siteUrl).Some?
    ensures var c := CrawlSpec(w, siteUrl, 1);
            && c.pagesScanned == 1
            && forall i :: 0 <= i < |c.results| && c.results[i].linkUrl != siteUrl ==>
                 c.results[i].statusCode == (if w.probe(c.results[i].linkUrl).Some?
                                             then Some(w.probe(c.results[i].linkUrl).value.status) else None)
  {
    CrawlFetchesEachPageOnce(w, siteUrl, 1);
    CrawlResultStatuses(w, siteUrl, 1);
    var fr := Crawled1(w, siteUrl, 1);
    assert siteUrl in fr.visited;
  }


  /** The URL one anchor adds to the queue, if any: that of an internal
      link not yet visited. */
  function Queued(w: World, host: string, visited: set<string>, pageUrl: string, a: Anchor): seq<string> {
    match Sight(w, host, pageUrl, a)
    case Some(s) => if s.info.linkType == Internal && s.key !in visited then [s.key] else []
    case None => []
  }

  /** The URLs the anchors of one page add to the queue, in document
      order, repeats included. */
  function Enqueued(w: World, host: string, visited: set<string>, pageUrl: string, anchors: seq<Anchor>): seq<string>
    decreases |anchors|
  {
    if anchors == [] then []
    else Enqueued(w, host, visited, pageUrl, anchors[..|anchors| - 1])
         + Queued(w, host, visited, pageUrl, anchors[|anchors| - 1])
  }

  lemma RecordAnchorQueue(w: World, host: string, fr: Frontier, pageUrl: string, a: Anchor)
    ensures RecordAnchor(w, host, fr, pageUrl, a).toVisit
            == fr.toVisit + Queued(w, host, fr.visited, pageUrl, a)
  {
  }

  lemma {:induction false} RecordAnchorsQueue(w: World, host: string, fr: Frontier, pageUrl: string, anchors: seq<Anchor>)
    ensures RecordAnchors(w, host, fr, pageUrl, anchors).toVisit
            == fr.toVisit + Enqueued(w, host, fr.visited, pageUrl, anchors)
    decreases |anchors|
  {
    if anchors != [] {
      var init, last := anchors[..|anchors| - 1], anchors[|anchors| - 1];
      var mid := RecordAnchors(w, host, fr, pageUrl, init);
      RecordAnchorsQueue(w, host, fr, pageUrl, init);
      RecordAnchorQueue(w, host, mid, pageUrl, last);
      assert mid.visited == fr.visited;
    }
  }

  /** The queue is first-in first-out: a turn of the crawl loop removes the
      head and appends, at the back, the internal not-yet-visited links of
      the page it fetched, if any. */
  lemma VisitIsFifo(w: World, host: string, fr: Frontier)
    requires fr.toVisit != []
    ensures var p := fr.toVisit[0];
            Visit(w, host, fr).toVisit
            == fr.toVisit[1..] + (if p in fr.visited || w.page(p).None? then []
                                  else Enqueued(w, host, fr.visited + {p}, p, w.page(p).value))
  {
    var p := fr.toVisit[0];
    if p !in fr.visited && w.page(p).Some? {
      var marked := fr.(toVisit := fr.toVisit[1..], visited := fr.visited + {p}, fetched := fr.fetched + [p]);
      RecordAnchorsQueue(w, host, marked, p, w.page(p).value);
    }
  }

  /** What one anchor contributes to the `seen` trace: its sighting, if it
      survives the filter and resolves. */
  function SightingOf(w: World, host: string, pageUrl: string, a: Anchor): seq<Sighting> {
    match Sight(w, host, pageUrl, a)
    case Some(s) => [s]
    case None => []
  }

  /** The sightings of the anchors of one page, in document order. */
  function Sightings(w: World, host: string, pageUrl: string, anchors: seq<Anchor>): seq<Sighting>
    decreases |anchors|
  {
    if anchors == [] then []
    else Sightings(w, host, pageUrl, anchors[..|anchors| - 1])
         + SightingOf(w, host, pageUrl, anchors[|anchors| - 1])
  }

  /** Collecting a page's links appends the sightings of its anchors to
      `seen`, in document order: the trace is the crawl's own order of
      discovery, so "first in `seen`" is "first found by the crawl". */
  lemma {:induction false} RecordAnchorsSeen(w: World, host: string, fr: Frontier, pageUrl: string, anchors: seq<Anchor>)
    ensures RecordAnchors(w, host, fr, pageUrl, anchors).seen
            == fr.seen + Sightings(w, host, pageUrl, anchors)
    decreases |anchors|
  {
    if anchors != [] {
      var init := anchors[..|anchors| - 1];
      RecordAnchorsSeen(w, host, fr, pageUrl, init);
    }
  }

  /** A loop turn appends, to `seen`, the sightings of the fetched page's
      anchors, in document order, and nothing for a page it drops or
      fails to load. */
  lemma VisitSeen(w: World, host: string, fr: Frontier)
    requires fr.toVisit != []
    ensures var p := fr.toVisit[0];
            Visit(w, host, fr).seen
            == fr.seen + (if p in fr.visited || w.page(p).None? then []
                          else Sightings(w, host, p, w.page(p).value))
  {
    var p := fr.toVisit[0];
    if p !in fr.visited && w.page(p).Some? {
      var marked := fr.(toVisit := fr.toVisit[1..], visited := fr.visited + {p}, fetched := fr.fetched + [p]);
      RecordAnchorsSeen(w, host, marked, p, w.page(p).value);
    }
  }
}
