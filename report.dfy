/** The tally the instant scan route (src/app/api/scan/instant/route.ts)
    writes into the completed report once the crawl resolves, and the
    zeroed report it writes when the crawl fails. */
module Report {
  import opened Wrappers
  import opened Crawler
  import opened CrawlerTheorems

  datatype Totals = Totals(totalLinks: nat, brokenLinks: nat, redirectedLinks: nat)

  const BrokenStatuses: set<Status> := {Broken, Timeout}
  const RedirectStatuses: set<Status> := {Redirect}

  /** The positions of the results whose status is in `keep`. */
  ghost function IndicesWhere(rs: seq<LinkResult>, keep: set<Status>): set<int>
  {
    set i | 0 <= i < |rs| && rs[i].status in keep
  }

  /** The length of `results.filter(r => keep has r.status)`. */
  function CountWhere(rs: seq<LinkResult>, keep: set<Status>): (n: nat)
    ensures n <= |rs|
    ensures n == |rs| <==> forall i :: 0 <= i < |rs| ==> rs[i].status in keep
    ensures n == 0 <==> forall i :: 0 <= i < |rs| ==> rs[i].status !in keep
    decreases |rs|
  {
    if rs == [] then 0
    else CountWhere(rs[..|rs| - 1], keep) + (if rs[|rs| - 1].status in keep then 1 else 0)
  }

  /** The count is the number of positions holding a kept status. */
  lemma {:induction false} CountWhereCountsIndices(rs: seq<LinkResult>, keep: set<Status>)
    ensures CountWhere(rs, keep) == |IndicesWhere(rs, keep)|
    decreases |rs|
  {
    if rs != [] {
      var init := rs[..|rs| - 1];
      var last := if rs[|rs| - 1].status in keep then {|rs| - 1} else {};
      CountWhereCountsIndices(init, keep);
      forall i ensures i in IndicesWhere(rs, keep) <==> i in IndicesWhere(init, keep) + last {
        if 0 <= i < |init| {
          assert rs[i] == init[i];
        }
      }
      assert IndicesWhere(rs, keep) == IndicesWhere(init, keep) + last;
    }
  }

  /** Counting two disjoint sets of statuses counts their union. */
  lemma {:induction false} CountWhereDisjoint(rs: seq<LinkResult>, a: set<Status>, b: set<Status>)
    requires a !! b
    ensures CountWhere(rs, a) + CountWhere(rs, b) == CountWhere(rs, a + b)
    decreases |rs|
  {
    if rs != [] {
      CountWhereDisjoint(rs[..|rs| - 1], a, b);
    }
  }

  /** `total_links`, `broken_links` and `redirected_links` of a completed
      report: broken counts broken and timed-out links alike. */
  function Tally(rs: seq<LinkResult>): (t: Totals)
    ensures t.totalLinks == |rs|
    ensures t.brokenLinks == |IndicesWhere(rs, BrokenStatuses)|
    ensures t.redirectedLinks == |IndicesWhere(rs, RedirectStatuses)|
    ensures t.brokenLinks + t.redirectedLinks <= t.totalLinks
  {
    CountWhereCountsIndices(rs, BrokenStatuses);
    CountWhereCountsIndices(rs, RedirectStatuses);
    CountWhereDisjoint(rs, BrokenStatuses, RedirectStatuses);
    Totals(|rs|, CountWhere(rs, BrokenStatuses), CountWhere(rs, RedirectStatuses))
  }

  /** Every result is counted under exactly one of broken (or timed
      out), redirected and ok. */
  lemma {:induction false} StatusCountsPartition(rs: seq<LinkResult>)
    ensures CountWhere(rs, BrokenStatuses) + CountWhere(rs, RedirectStatuses) + CountWhere(rs, {Ok}) == |rs|
    decreases |rs|
  {
    if rs != [] {
      StatusCountsPartition(rs[..|rs| - 1]);
      match rs[|rs| - 1].status
      case Ok =>
      case Broken =>
      case Redirect =>
      case Timeout =>
    }
  }

  /** The links counted by neither total are exactly the ok ones. */
  lemma TallyLeavesOk(rs: seq<LinkResult>)
    ensures var t := Tally(rs);
            t.totalLinks - t.brokenLinks - t.redirectedLinks == CountWhere(rs, {Ok})
  {
    StatusCountsPartition(rs);
  }

  datatype ScanStatus = Completed | Failed

  datatype ScanReport = ScanReport(status: ScanStatus, totals: Totals, pagesScanned: Option<nat>)

  /** The report written when the crawl settles: its tally and page count
      when it resolves, zero totals and no page count when it rejects. */
  function FinalReport(outcome: CrawlOutcome): (r: ScanReport)
    ensures outcome.InvalidRoot? <==> r.status == Failed
    ensures r.status == Failed ==> r.totals == Totals(0, 0, 0) && r.pagesScanned.None?
    ensures outcome.Crawled? ==>
              r.status == Completed
              && r.totals == Tally(outcome.results)
              && r.totals.totalLinks == |outcome.results|
              && r.totals.brokenLinks + r.totals.redirectedLinks <= r.totals.totalLinks
              && r.pagesScanned == Some(outcome.pagesScanned)
  {
    match outcome
    case InvalidRoot => ScanReport(Failed, Totals(0, 0, 0), None)
    case Crawled(results, pages, _) => ScanReport(Completed, Tally(results), Some(pages))
  }

  /** The page budget of an instant scan. */
  const InstantMaxPages: int := 20

  /** An instant scan of a URL that parses completes with at most twenty
      pages scanned and one counted result per distinct link found. */
  lemma InstantScanReport(w: World, url: string)
    requires w.parse(url).Some?
    ensures var r := FinalReport(CrawlSpec(w, url, InstantMaxPages));
            && r.status == Completed
            && r.pagesScanned.Some? && 1 <= r.pagesScanned.value <= InstantMaxPages
            && r.totals.totalLinks == |Crawled1(w, url, InstantMaxPages).order|
  {
    CrawlFetchesEachPageOnce(w, url, InstantMaxPages);
    CrawlResultsOnePerLink(w, url, InstantMaxPages);
  }
}
