/** The invariant of the crawl loop of `Crawler.CrawlSpec` (the page
    budget, the fetch log, the queue holding only the root and internal
    links, every entry of `allLinks` being its key's first sighting) and
    the lemmas that each step of phase 1 preserves it. */
module CrawlerProofs {
  import opened Wrappers
  import opened Crawler

  function Max0(n: int): nat {
    if n < 0 then 0 else n
  }

  /** Every page in `visited` was requested exactly once, and only those. */
  ghost predicate FetchLog(fr: Frontier) {
    && NoDup(fr.fetched)
    && |fr.fetched| == |fr.visited|
    && (forall u :: u in fr.fetched ==> u in fr.visited)
    && (forall u :: u in fr.visited ==> u in fr.fetched)
  }

  ghost predicate Sighted(seen: seq<Sighting>, k: string) {
    exists i :: 0 <= i < |seen| && seen[i].key == k
  }

  ghost predicate SightedInternal(seen: seq<Sighting>, k: string) {
    exists i :: 0 <= i < |seen| && seen[i].key == k && seen[i].info.linkType == Internal
  }

  /** `seen[i]` is the first sighting of its URL. */
  ghost predicate FirstSighting(seen: seq<Sighting>, i: int)
    requires 0 <= i < |seen|
  {
    forall j :: 0 <= j < i ==> seen[j].key != seen[i].key
  }

  /** `links` holds exactly the URLs sighted, each with what its first
      sighting carried. */
  ghost predicate FirstSeenWins(fr: Frontier) {
    && (forall i :: 0 <= i < |fr.seen| ==> fr.seen[i].key in fr.links)
    && (forall k :: k in fr.links ==> Sighted(fr.seen, k))
    && (forall i :: 0 <= i < |fr.seen| && FirstSighting(fr.seen, i) ==>
          fr.links[fr.seen[i].key] == fr.seen[i].info)
  }

  /** Sighting `s` comes from an anchor of the page it names as source. */
  ghost predicate FromAnchor(w: World, host: string, s: Sighting) {
    && w.page(s.info.source).Some?
    && exists a :: a in w.page(s.info.source).value && Sight(w, host, s.info.source, a) == Some(s)
  }

  ghost predicate SightingsFromPages(w: World, host: string, fr: Frontier) {
    forall i :: 0 <= i < |fr.seen| ==> fr.seen[i].info.source in fr.visited && FromAnchor(w, host, fr.seen[i])
  }

  /** Apart from the root, only URLs sighted as internal links are queued
      or fetched. */
  ghost predicate OnlyInternalQueued(root: string, fr: Frontier) {
    && (forall u :: u in fr.toVisit ==> u == root || SightedInternal(fr.seen, u))
    && (forall u :: u in fr.fetched ==> u == root || SightedInternal(fr.seen, u))
  }

  ghost predicate Explained(w: World, host: string, root: string, fr: Frontier) {
    && OrderMatches(fr)
    && FetchLog(fr)
    && FirstSeenWins(fr)
    && SightingsFromPages(w, host, fr)
    && OnlyInternalQueued(root, fr)
  }

  ghost predicate CrawlInv(w: World, host: string, root: string, maxPages: int, fr: Frontier) {
    Explained(w, host, root, fr) && |fr.visited| <= Max0(maxPages)
  }

  lemma SightedGrows(seen: seq<Sighting>, s: Sighting, k: string)
    ensures Sighted(seen, k) ==> Sighted(seen + [s], k)
    ensures SightedInternal(seen, k) ==> SightedInternal(seen + [s], k)
  {
    if Sighted(seen, k) {
      var i :| 0 <= i < |seen| && seen[i].key == k;
      assert (seen + [s])[i] == seen[i];
    }
    if SightedInternal(seen, k) {
      var i :| 0 <= i < |seen| && seen[i].key == k && seen[i].info.linkType == Internal;
      assert (seen + [s])[i] == seen[i];
    }
  }

  lemma FirstIsUnsighted(seen: seq<Sighting>, s: Sighting)
    requires FirstSighting(seen + [s], |seen|)
    ensures !Sighted(seen, s.key)
  {
    forall j | 0 <= j < |seen| ensures seen[j].key != s.key {
      assert (seen + [s])[j] == seen[j];
    }
  }

  /** Taking in a sighting keeps `links` the map of first sightings. */
  lemma AbsorbFirstSeen(fr: Frontier, s: Sighting)
    requires FirstSeenWins(fr)
    ensures FirstSeenWins(Absorb(fr, s))
  {
    var r := Absorb(fr, s);
    var n := |fr.seen|;
    assert r.seen == fr.seen + [s];
    assert r.seen[n] == s;
    forall k | k in r.links ensures Sighted(r.seen, k) {
      SightedGrows(fr.seen, s, k);
    }
    forall i | 0 <= i < |r.seen| && FirstSighting(r.seen, i)
      ensures r.links[r.seen[i].key] == r.seen[i].info
    {
      if i < n {
        assert r.seen[i] == fr.seen[i];
        assert FirstSighting(fr.seen, i) by {
          forall j | 0 <= j < i ensures fr.seen[j].key != fr.seen[i].key {
            assert r.seen[j] == fr.seen[j];
          }
        }
      } else {
        FirstIsUnsighted(fr.seen, s);
      }
    }
  }

  /** Taking in a sighting queues nothing but an internal sighted URL. */
  lemma AbsorbQueue(root: string, fr: Frontier, s: Sighting)
    requires OnlyInternalQueued(root, fr)
    ensures OnlyInternalQueued(root, Absorb(fr, s))
  {
    var r := Absorb(fr, s);
    assert r.seen[|fr.seen|] == s;
    forall u | u in r.toVisit ensures u == root || SightedInternal(r.seen, u) {
      SightedGrows(fr.seen, s, u);
    }
    forall u | u in r.fetched ensures u == root || SightedInternal(r.seen, u) {
      SightedGrows(fr.seen, s, u);
    }
  }

  /** Recording one anchor of a fetched page keeps the invariant. */
  lemma RecordAnchorKeeps(w: World, host: string, root: string, fr: Frontier, p: string, a: Anchor)
    requires Explained(w, host, root, fr)
    requires p in fr.visited && w.page(p).Some? && a in w.page(p).value
    ensures Explained(w, host, root, RecordAnchor(w, host, fr, p, a))
  {
    match Sight(w, host, p, a)
    case None =>
    case Some(s) =>
      var r := Absorb(fr, s);
      AbsorbFirstSeen(fr, s);
      AbsorbQueue(root, fr, s);
      assert FromAnchor(w, host, s);
      assert r.seen == fr.seen + [s];
      assert SightingsFromPages(w, host, r);
  }

  /** Recording the anchors of a fetched page keeps the invariant. */
  lemma {:induction false} RecordAnchorsKeeps(w: World, host: string, root: string, fr: Frontier,
                                              p: string, anchors: seq<Anchor>)
    requires Explained(w, host, root, fr)
    requires p in fr.visited && w.page(p).Some?
    requires forall a :: a in anchors ==> a in w.page(p).value
    ensures Explained(w, host, root, RecordAnchors(w, host, fr, p, anchors))
    decreases |anchors|
  {
    if anchors != [] {
      var init := anchors[..|anchors| - 1];
      assert forall a :: a in init ==> a in anchors;
      RecordAnchorsKeeps(w, host, root, fr, p, init);
      RecordAnchorKeeps(w, host, root, RecordAnchors(w, host, fr, p, init), p, anchors[|anchors| - 1]);
    }
  }

  /** One turn of the crawl loop keeps the invariant and the page bound. */
  lemma VisitKeeps(w: World, host: string, root: string, maxPages: int, fr: Frontier)
    requires CrawlInv(w, host, root, maxPages, fr)
    requires fr.toVisit != [] && |fr.visited| < maxPages
    ensures CrawlInv(w, host, root, maxPages, Visit(w, host, fr))
  {
    var p := fr.toVisit[0];
    if p !in fr.visited {
      var marked := fr.(toVisit := fr.toVisit[1..], visited := fr.visited + {p}, fetched := fr.fetched + [p]);
      assert p !in fr.fetched;
      assert Explained(w, host, root, marked);
      match w.page(p)
      case None =>
      case Some(anchors) =>
        RecordAnchorsKeeps(w, host, root, marked, p, anchors);
    }
  }

  /** The crawl loop keeps the invariant, and stops only when the queue is
      empty or the budget is spent. */
  lemma {:induction false} Phase1Keeps(w: World, host: string, root: string, maxPages: int, fr: Frontier)
    requires CrawlInv(w, host, root, maxPages, fr)
    ensures var r := Phase1(w, host, maxPages, fr);
            CrawlInv(w, host, root, maxPages, r) && (r.toVisit == [] || |r.visited| >= maxPages)
    decreases (if |fr.visited| < maxPages then maxPages - |fr.visited| else 0), |fr.toVisit|
  {
    if fr.toVisit != [] && |fr.visited| < maxPages {
      VisitKeeps(w, host, root, maxPages, fr);
      Phase1Keeps(w, host, root, maxPages, Visit(w, host, fr));
    }
  }
}
