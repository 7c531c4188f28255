/** The phase-2 short cut of `crawlSite` (src/lib/crawler.ts:84) treats
    every visited internal page as `ok` with code 200. A page is marked
    visited before it is fetched and stays visited when the fetch fails,
    is not 2xx or is not HTML; and the GET follows redirects, so a page
    that redirects to an HTML page is visited too. Such a page is reported
    `ok` and never probed. This module exhibits both cases on a concrete
    crawl and states the corrected check: the short cut applies only to a
    page whose GET gave an HTML page without a redirect, as phase 1
    records it in `loaded`; every other link gets its probe's verdict. */
module CrawlerFixes {
  import opened Wrappers
  import opened Urls
  import opened AnchorText
  import opened Crawler
  import opened CrawlerTheorems

  /** A site whose root `r` links to the internal page `a`. The GET of `a`
      gives `pageA` and follows a redirect iff `redirectedA`; its HEAD
      probe answers `probeA`. */
  function SiteWorld(pageA: Option<seq<Anchor>>, redirectedA: bool, probeA: Response): World {
    World(
      s => if s == "r" then Some(Url("r", "h")) else None,
      (href, base) => if href == "a" then Some(Url("a", "h")) else None,
      u => if u == "r" then Some([Anchor("a", "A")]) else if u == "a" then pageA else None,
      u => u == "a" && redirectedA,
      u => if u == "a" then Some(probeA) else None)
  }

  /** `a` answers 404 to its GET, which therefore fails, and to its probe. */
  function FailingPageWorld(): World {
    SiteWorld(None, false, Response(404, None))
  }

  /** `a` answers 301 with `Location: d`; the GET follows it to `d`, an
      HTML page without links. */
  function RedirectingPageWorld(): World {
    SiteWorld(Some([]), true, Response(301, Some("d")))
  }

  /** The one anchor of the root is kept with its URL and text, as an
      internal link. */
  lemma SeenOnRoot(pageA: Option<seq<Anchor>>, redirectedA: bool, probeA: Response)
    ensures Sight(SiteWorld(pageA, redirectedA, probeA), "h", "r", Anchor("a", "A"))
            == Some(Sighting("a", LinkInfo("r", "A", Internal)))
  {
    assert !Skipped("a") by {
      assert "a"[..1][0] == 'a' != '#' == "#"[0];
      assert |"mailto:"| > 1 && |"javascript:"| > 1 && |"tel:"| > 1;
    }
    assert StripFragment("a") == "a" by {
      StripFragmentFixed("a");
    }
    assert StoredText("A") == "A" by {
      assert SpaceEnd("A", 0) == 0;
      assert SpaceStart("A", 0, 1) == 1;
      assert Trim("A") == "A"[0..1] == "A";
    }
  }

  /** The anchors of the root, recorded on the frontier just after the
      root is marked visited. */
  lemma RootAnchorsRecorded(pageA: Option<seq<Anchor>>, redirectedA: bool, probeA: Response)
    ensures var info := LinkInfo("r", "A", Internal);
            RecordAnchors(SiteWorld(pageA, redirectedA, probeA), "h",
                          Frontier([], {"r"}, [], map[], ["r"], {}, []), "r", [Anchor("a", "A")])
            == Frontier(["a"], {"r"}, ["a"], map["a" := info], ["r"], {}, [Sighting("a", info)])
  {
    var w := SiteWorld(pageA, redirectedA, probeA);
    var anchors := [Anchor("a", "A")];
    var marked := Frontier([], {"r"}, [], map[], ["r"], {}, []);
    SeenOnRoot(pageA, redirectedA, probeA);
    assert anchors[..0] == [];
    assert RecordAnchors(w, "h", marked, "r", anchors[..0]) == marked;
  }

  /** The frontier after the root is fetched: the root loaded, and `a` is
      queued and recorded. */
  lemma RootVisit(pageA: Option<seq<Anchor>>, redirectedA: bool, probeA: Response)
    ensures var info := LinkInfo("r", "A", Internal);
            Visit(SiteWorld(pageA, redirectedA, probeA), "h", Start("r"))
            == Frontier(["a"], {"r"}, ["a"], map["a" := info], ["r"], {"r"}, [Sighting("a", info)])
  {
    var w := SiteWorld(pageA, redirectedA, probeA);
    var s0 := Start("r");
    var marked := Frontier([], {"r"}, [], map[], ["r"], {}, []);
    assert s0.toVisit[0] == "r" && s0.toVisit[1..] == [] && "r" !in s0.visited;
    assert s0.(toVisit := s0.toVisit[1..]).(visited := s0.visited + {"r"}, fetched := s0.fetched + ["r"]) == marked;
    assert w.page("r") == Some([Anchor("a", "A")]) && !w.redirected("r");
    RootAnchorsRecorded(pageA, redirectedA, probeA);
    var r := RecordAnchors(w, "h", marked, "r", [Anchor("a", "A")]);
    assert Visit(w, "h", s0) == r.(loaded := r.loaded + {"r"});
  }

  /** The frontier after `a` is fetched: it is marked visited whatever its
      GET gave, and noted as loaded only if that was an HTML page reached
      without a redirect. */
  lemma SecondVisit(pageA: Option<seq<Anchor>>, redirectedA: bool, probeA: Response)
    requires pageA == None || pageA == Some([])
    ensures var info := LinkInfo("r", "A", Internal);
            Visit(SiteWorld(pageA, redirectedA, probeA), "h",
                  Frontier(["a"], {"r"}, ["a"], map["a" := info], ["r"], {"r"}, [Sighting("a", info)]))
            == Frontier([], {"r", "a"}, ["a"], map["a" := info], ["r", "a"],
                        if pageA.Some? && !redirectedA then {"r", "a"} else {"r"}, [Sighting("a", info)])
  {
    var w := SiteWorld(pageA, redirectedA, probeA);
    var info := LinkInfo("r", "A", Internal);
    var fr := Frontier(["a"], {"r"}, ["a"], map["a" := info], ["r"], {"r"}, [Sighting("a", info)]);
    var marked := Frontier([], {"r", "a"}, ["a"], map["a" := info], ["r", "a"], {"r"}, [Sighting("a", info)]);
    assert fr.toVisit[1..] == [];
    if pageA.Some? {
      assert RecordAnchors(w, "h", marked, "a", []) == marked;
    }
  }

  /** The crawl of the site: `r` then `a` are visited, and `a` adds no
      link. */
  lemma SiteCrawl(pageA: Option<seq<Anchor>>, redirectedA: bool, probeA: Response)
    requires pageA == None || pageA == Some([])
    ensures var info := LinkInfo("r", "A", Internal);
            Phase1(SiteWorld(pageA, redirectedA, probeA), "h", 10, Start("r"))
            == Frontier([], {"r", "a"}, ["a"], map["a" := info], ["r", "a"],
                        if pageA.Some? && !redirectedA then {"r", "a"} else {"r"}, [Sighting("a", info)])
  {
    var w := SiteWorld(pageA, redirectedA, probeA);
    var info := LinkInfo("r", "A", Internal);
    var v1 := Frontier(["a"], {"r"}, ["a"], map["a" := info], ["r"], {"r"}, [Sighting("a", info)]);
    var v2 := Frontier([], {"r", "a"}, ["a"], map["a" := info], ["r", "a"],
                       if pageA.Some? && !redirectedA then {"r", "a"} else {"r"}, [Sighting("a", info)]);
    RootVisit(pageA, redirectedA, probeA);
    assert Phase1(w, "h", 10, Start("r")) == Phase1(w, "h", 10, v1);
    SecondVisit(pageA, redirectedA, probeA);
    assert |v2.visited| == 2;
    assert Phase1(w, "h", 10, v1) == Phase1(w, "h", 10, v2) == v2;
  }

  /** Two pages are scanned and phase 2, as written and corrected, runs
      over the single link `a`. */
  lemma SiteOutcome(pageA: Option<seq<Anchor>>, redirectedA: bool, probeA: Response)
    requires pageA == None || pageA == Some([])
    ensures var w := SiteWorld(pageA, redirectedA, probeA);
            var links := map["a" := LinkInfo("r", "A", Internal)];
            && CrawlSpec(w, "r", 10) == Crawled(Results(w, {"r", "a"}, links, ["a"]), 2, [1])
            && CrawlSpecFixed(w, "r", 10)
               == Crawled(ResultsFixed(w, {"r", "a"}, if pageA.Some? && !redirectedA then {"r", "a"} else {"r"},
                                       links, ["a"]), 2, [1])
  {
    SiteCrawl(pageA, redirectedA, probeA);
    var visited: set<string> := {"r", "a"};
    assert |visited| == 2;
    assert Ascending(1) == [1];
  }

  /** Phase 2 over the single key `a`: as written, the visited internal
      page `a` is ok/200 whatever the world; corrected, it gets the verdict
      of the corrected check. */
  lemma SiteResults(w: World, loaded: set<string>)
    ensures var info := LinkInfo("r", "A", Internal);
            var visited: set<string> := {"r", "a"};
            && Results(w, visited, map["a" := info], ["a"]) == [LinkResult("a", "r", Some(200), Ok, None, "A", Internal)]
            && ResultsFixed(w, visited, loaded, map["a" := info], ["a"]) == [VerdictFixed(w, visited, loaded, "a", info)]
  {
    var info := LinkInfo("r", "A", Internal);
    var visited: set<string> := {"r", "a"};
    assert ["a"][..0] == [];
    assert ShortCircuits(visited, "a", info);
    assert Verdict(w, visited, "a", info) == LinkResult("a", "r", Some(200), Ok, None, "A", Internal);
  }

  /** As written: the link to `a` is reported `ok` with code 200 although
      its GET failed and its probe would answer 404. */
  lemma BrokenInternalPageReportedOk()
    ensures FailingPageWorld().page("a").None?
    ensures FailingPageWorld().probe("a") == Some(Response(404, None))
    ensures CrawlSpec(FailingPageWorld(), "r", 10)
            == Crawled([LinkResult("a", "r", Some(200), Ok, None, "A", Internal)], 2, [1])
  {
    var w := FailingPageWorld();
    var info := LinkInfo("r", "A", Internal);
    var visited: set<string> := {"r", "a"};
    assert w == SiteWorld(None, false, Response(404, None));
    SiteOutcome(None, false, Response(404, None));
    SiteResults(w, {});
  }

  /** As written: the link to `a` is reported `ok` with code 200 although
      it redirects to `d`, which its probe would report. */
  lemma RedirectingInternalPageReportedOk()
    ensures RedirectingPageWorld().page("a").Some? && RedirectingPageWorld().redirected("a")
    ensures RedirectingPageWorld().probe("a") == Some(Response(301, Some("d")))
    ensures CrawlSpec(RedirectingPageWorld(), "r", 10)
            == Crawled([LinkResult("a", "r", Some(200), Ok, None, "A", Internal)], 2, [1])
  {
    var w := RedirectingPageWorld();
    var info := LinkInfo("r", "A", Internal);
    var visited: set<string> := {"r", "a"};
    assert w == SiteWorld(Some([]), true, Response(301, Some("d")));
    SiteOutcome(Some([]), true, Response(301, Some("d")));
    SiteResults(w, {});
  }

  /** The intended check of one entry: the short cut applies only to an
      internal visited page that phase 1 noted as loaded. */
  function CheckLinkFixed(w: World, visited: set<string>, loaded: set<string>, linkUrl: string, info: LinkInfo): Check {
    if ShortCircuits(visited, linkUrl, info) && linkUrl in loaded then Check(Some(200), Ok, None)
    else
      match w.probe(linkUrl)
      case Some(res) => Check(Some(res.status), Classify(res.status), RedirectTarget(res.location))
      case None => Check(None, Timeout, None)
  }

  function VerdictFixed(w: World, visited: set<string>, loaded: set<string>, linkUrl: string, info: LinkInfo): LinkResult {
    var c := CheckLinkFixed(w, visited, loaded, linkUrl, info);
    LinkResult(linkUrl, info.source, c.code, c.status, c.redirectTo, info.text, info.linkType)
  }

  /** Phase 2 with the intended check. */
  function ResultsFixed(w: World, visited: set<string>, loaded: set<string>, links: map<string, LinkInfo>,
                        keys: seq<string>): (r: seq<LinkResult>)
    requires forall k :: k in keys ==> k in links
    ensures |r| == |keys|
    decreases |keys|
  {
    if keys == [] then []
    else
      var k := keys[|keys| - 1];
      ResultsFixed(w, visited, loaded, links, keys[..|keys| - 1]) + [VerdictFixed(w, visited, loaded, k, links[k])]
  }

  /** `crawlSite` with the intended check. */
  function CrawlSpecFixed(w: World, siteUrl: string, maxPages: int): CrawlOutcome {
    match w.parse(siteUrl)
    case None => InvalidRoot
    case Some(base) =>
      var fr := Phase1(w, base.hostname, maxPages, Start(siteUrl));
      var results := ResultsFixed(w, fr.visited, fr.loaded, fr.links, fr.order);
      Crawled(results, |fr.visited|, Ascending(|results|))
  }

  lemma {:induction false} ResultsFixedAt(w: World, visited: set<string>, loaded: set<string>,
                                          links: map<string, LinkInfo>, keys: seq<string>, i: int)
    requires forall k :: k in keys ==> k in links
    requires 0 <= i < |keys|
    ensures ResultsFixed(w, visited, loaded, links, keys)[i]
            == VerdictFixed(w, visited, loaded, keys[i], links[keys[i]])
    decreases |keys|
  {
    var init := keys[..|keys| - 1];
    if i < |keys| - 1 {
      assert forall k :: k in init ==> k in keys;
      ResultsFixedAt(w, visited, loaded, links, init, i);
    }
  }

  /** `loaded` holds exactly the visited pages whose GET gave an HTML page
      without following a redirect. */
  ghost predicate LoadedExactly(w: World, fr: Frontier) {
    forall u :: u in fr.loaded <==> u in fr.visited && w.page(u).Some? && !w.redirected(u)
  }

  lemma {:induction false} Phase1Loaded(w: World, host: string, maxPages: int, fr: Frontier)
    requires LoadedExactly(w, fr)
    ensures LoadedExactly(w, Phase1(w, host, maxPages, fr))
    decreases (if |fr.visited| < maxPages then maxPages - |fr.visited| else 0), |fr.toVisit|
  {
    if fr.toVisit != [] && |fr.visited| < maxPages {
      var v := Visit(w, host, fr);
      assert LoadedExactly(w, v);
      Phase1Loaded(w, host, maxPages, v);
    }
  }

  /** At the end of the crawl, `loaded` is exactly the visited pages that
      loaded as HTML without a redirect. */
  lemma CrawlLoaded(w: World, siteUrl: string, maxPages: int)
    requires w.parse(siteUrl).Some?
    ensures var fr := Crawled1(w, siteUrl, maxPages);
            forall u :: u in fr.loaded <==> u in fr.visited && w.page(u).Some? && !w.redirected(u)
  {
    Phase1Loaded(w, w.parse(siteUrl).value.hostname, maxPages, Start(siteUrl));
  }

  /** The intended status of one link: a link not noted as loaded gets its
      probe's code, band and redirect target (so a 404 is `broken`, a 301
      `redirect` and a failed probe `timeout`); `ok` with 200 without a
      probe is given only to an internal visited page that loaded. */
  lemma VerdictFixedStatus(w: World, visited: set<string>, loaded: set<string>, k: string, info: LinkInfo)
    ensures var r := VerdictFixed(w, visited, loaded, k, info);
            && (r.status == Timeout <==> r.statusCode.None?)
            && (r.statusCode.Some? ==> InBand(r.statusCode.value, r.status))
            && (k !in loaded ==>
                  match w.probe(k)
                  case Some(res) => r.statusCode == Some(res.status) && r.status == Classify(res.status)
                                    && r.redirectTo == RedirectTarget(res.location)
                  case None => r.status == Timeout && r.statusCode.None?)
            && (r != Verdict(w, visited, k, info) ==> ShortCircuits(visited, k, info) && k !in loaded)
  {
  }

  /** With the intended check, every link whose GET did not give an HTML
      page without a redirect carries its probe's verdict. */
  lemma CrawlFixedProbesUnloadedPages(w: World, siteUrl: string, maxPages: int)
    requires w.parse(siteUrl).Some?
    ensures var rs := CrawlSpecFixed(w, siteUrl, maxPages).results;
            forall i :: 0 <= i < |rs| && (w.page(rs[i].linkUrl).None? || w.redirected(rs[i].linkUrl)) ==>
              match w.probe(rs[i].linkUrl)
              case Some(res) => rs[i].statusCode == Some(res.status) && rs[i].status == Classify(res.status)
                                && rs[i].redirectTo == RedirectTarget(res.location)
              case None => rs[i].status == Timeout && rs[i].statusCode.None?
  {
    var fr := Crawled1(w, siteUrl, maxPages);
    var rs := ResultsFixed(w, fr.visited, fr.loaded, fr.links, fr.order);
    CrawlLoaded(w, siteUrl, maxPages);
    forall i | 0 <= i < |rs| && (w.page(rs[i].linkUrl).None? || w.redirected(rs[i].linkUrl))
      ensures match w.probe(rs[i].linkUrl)
              case Some(res) => rs[i].statusCode == Some(res.status) && rs[i].status == Classify(res.status)
                                && rs[i].redirectTo == RedirectTarget(res.location)
              case None => rs[i].status == Timeout && rs[i].statusCode.None?
    {
      var k := fr.order[i];
      ResultsFixedAt(w, fr.visited, fr.loaded, fr.links, fr.order, i);
      VerdictFixedStatus(w, fr.visited, fr.loaded, k, fr.links[k]);
    }
  }

  /** The intended check changes nothing when every visited page loaded:
      it differs from the code only on the pages the short cut misreports. */
  lemma {:induction false} ResultsFixedAgree(w: World, visited: set<string>, loaded: set<string>,
                                             links: map<string, LinkInfo>, keys: seq<string>)
    requires forall k :: k in keys ==> k in links
    requires forall u :: u in visited ==> u in loaded
    ensures ResultsFixed(w, visited, loaded, links, keys) == Results(w, visited, links, keys)
    decreases |keys|
  {
    if keys != [] {
      var init := keys[..|keys| - 1];
      assert forall k :: k in init ==> k in keys;
      ResultsFixedAgree(w, visited, loaded, links, init);
    }
  }

  lemma CrawlFixedAgreesWhenPagesLoad(w: World, siteUrl: string, maxPages: int)
    requires w.parse(siteUrl).Some?
    requires forall u :: u in Crawled1(w, siteUrl, maxPages).visited ==> w.page(u).Some? && !w.redirected(u)
    ensures CrawlSpecFixed(w, siteUrl, maxPages) == CrawlSpec(w, siteUrl, maxPages)
  {
    var fr := Crawled1(w, siteUrl, maxPages);
    CrawlLoaded(w, siteUrl, maxPages);
    ResultsFixedAgree(w, fr.visited, fr.loaded, fr.links, fr.order);
  }

  /** Corrected: the link to the failing page `a` is reported `broken`
      with its code 404. */
  lemma BrokenInternalPageReportedBroken()
    ensures CrawlSpecFixed(FailingPageWorld(), "r", 10)
            == Crawled([LinkResult("a", "r", Some(404), Broken, None, "A", Internal)], 2, [1])
  {
    var w := FailingPageWorld();
    var info := LinkInfo("r", "A", Internal);
    var visited: set<string> := {"r", "a"};
    var loaded: set<string> := {"r"};
    assert w == SiteWorld(None, false, Response(404, None));
    SiteOutcome(None, false, Response(404, None));
    assert "a" !in loaded;
    assert VerdictFixed(w, visited, loaded, "a", info) == LinkResult("a", "r", Some(404), Broken, None, "A", Internal);
    SiteResults(w, loaded);
  }

  /** Corrected: the link to the redirecting page `a` is reported
      `redirect` with its code 301 and its target `d`. */
  lemma RedirectingInternalPageReportedRedirect()
    ensures CrawlSpecFixed(RedirectingPageWorld(), "r", 10)
            == Crawled([LinkResult("a", "r", Some(301), Redirect, Some("d"), "A", Internal)], 2, [1])
  {
    var w := RedirectingPageWorld();
    var info := LinkInfo("r", "A", Internal);
    var visited: set<string> := {"r", "a"};
    var loaded: set<string> := {"r"};
    assert w == SiteWorld(Some([]), true, Response(301, Some("d")));
    SiteOutcome(Some([]), true, Response(301, Some("d")));
    assert "a" !in loaded;
    assert VerdictFixed(w, visited, loaded, "a", info) == LinkResult("a", "r", Some(301), Redirect, Some("d"), "A", Internal);
    SiteResults(w, loaded);
  }
}
