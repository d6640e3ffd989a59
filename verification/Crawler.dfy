/** Breadth-first link discovery (pkg/crawler/crawler.go), without seed discovery and forms. */
module Crawling {
  import opened Prelude

  type Url = string

  /**
   * What the crawler finds out there: the links of a page fetched at a level, or none if fetching it
   * fails, because the page is not to be had or because the context was cancelled meanwhile.
   */
  datatype Web = Web(links: (nat, Url) -> Option<seq<Url>>, inScope: Url -> bool, sameOrigin: (Url, Url) -> bool)

  class Crawler {
    const web: Web
    const maxDepth: nat
    const maxPages: nat
    const sameHostOnly: bool
    var visited: set<Url>

    constructor (web: Web, maxDepth: int, maxPages: int, sameHostOnly: bool)
      ensures visited == {} && this.web == web && this.sameHostOnly == sameHostOnly
      ensures this.maxDepth == if maxDepth < 0 then 2 else maxDepth
      ensures this.maxPages == (if maxPages <= 0 then 50 else maxPages) > 0
    {
      this.web, this.sameHostOnly, visited := web, sameHostOnly, {};
      this.maxDepth := if maxDepth < 0 then 2 else maxDepth;
      this.maxPages := if maxPages <= 0 then 50 else maxPages;
    }

    predicate Admitted(start: Url, u: Url) {
      web.inScope(u) && (sameHostOnly ==> web.sameOrigin(start, u))
    }

    /** The links that fetching a page at level `d` delivers. */
    function Out(d: nat, u: Url): seq<Url> {
      match web.links(d, u)
      case Some(links) => links
      case None => []
    }

    /**
     * The admitted URLs at most `d` links away from the start, through admitted pages only, as far as
     * fetching those pages succeeded; every page is fetched once, at its own distance.
     */
    ghost function Reach(start: Url, d: nat): set<Url>
      decreases d, 1
    {
      if d == 0 then (if Admitted(start, start) then {start} else {})
      else Reach(start, d - 1) + Linked(start, d - 1, New(start, d - 1))
    }

    /** The URLs at distance `d`. */
    ghost function New(start: Url, d: nat): set<Url>
      decreases d, 2
    {
      Reach(start, d) - Before(start, d)
    }

    /** The admitted URLs that the given pages, fetched at level `d`, link to. */
    ghost function Linked(start: Url, d: nat, pages: set<Url>): set<Url> {
      set u, v | u in pages && v in Out(d, u) && Admitted(start, v) :: v
    }

    /** The URLs that may be taken at all: in scope, and of the start's origin if the crawl is limited to its host. */
    predicate Permitted(start: Url, u: Url) {
      web.inScope(u) && !(sameHostOnly && !web.sameOrigin(start, u))
    }

    /** A page at a distance below `d` was fetched at that level, and the links found on it contain `v`. */
    ghost predicate FoundBefore(start: Url, d: nat, v: Url) {
      exists e: nat, u :: e < d && u in New(start, e) && web.links(e, u).Some? && v in web.links(e, u).value
    }

    /** What is within `d` links: the start and every link found on pages before, as far as permitted. */
    lemma {:induction false} ReachIsTold(start: Url, d: nat)
      ensures forall v :: v in Reach(start, d) <==> Permitted(start, v) && (v == start || FoundBefore(start, d, v))
    {
      hide New;
      if d > 0 {
        ReachIsTold(start, d - 1);
        ReachNext(start, d - 1);
        forall v ensures v in Reach(start, d) <==> Permitted(start, v) && (v == start || FoundBefore(start, d, v)) {
          LinkedIsTold(start, d - 1, v);
        }
      }
    }

    /** A page of distance `d` was fetched, and the links found on it contain `v`. */
    ghost predicate FoundAt(start: Url, d: nat, v: Url) {
      exists u :: u in New(start, d) && web.links(d, u).Some? && v in web.links(d, u).value
    }

    lemma LinkedIsTold(start: Url, d: nat, v: Url)
      ensures v in Linked(start, d, New(start, d)) <==> Permitted(start, v) && FoundAt(start, d, v)
      ensures FoundBefore(start, d + 1, v) <==> FoundBefore(start, d, v) || FoundAt(start, d, v)
    {
      hide New;
      var pages := New(start, d);
      if v in Linked(start, d, pages) {
        var u :| u in pages && v in Out(d, u) && Admitted(start, v);
        assert u in New(start, d) && web.links(d, u).Some? && v in web.links(d, u).value;
        assert FoundAt(start, d, v);
      }
      if Permitted(start, v) && FoundAt(start, d, v) {
        var u :| u in New(start, d) && web.links(d, u).Some? && v in web.links(d, u).value;
        assert u in pages && v in Out(d, u) && Admitted(start, v);
      }
      if FoundBefore(start, d + 1, v) {
        var e: nat, u :| e < d + 1 && u in New(start, e) && web.links(e, u).Some? && v in web.links(e, u).value;
        assert e == d || e < d;
      }
    }

    /** What has been reached before level `d`. */
    ghost function Before(start: Url, d: nat): set<Url>
      decreases d, 0
    {
      if d == 0 then {} else Reach(start, d - 1)
    }

    lemma ReachNext(start: Url, d: nat)
      ensures Reach(start, d + 1) == Reach(start, d) + Linked(start, d, New(start, d))
    {
    }

    /**
     * If a page has the same links whenever it is fetched, this is plain reachability: whatever is
     * linked to by a page within `d` links is within `d + 1`.
     */
    lemma {:induction false} ReachOfAFixedWeb(start: Url, d: nat)
      requires forall i, j, u :: Out(i, u) == Out(j, u)
      ensures Reach(start, d + 1) == Reach(start, d) + Linked(start, d, Reach(start, d))
    {
      hide Reach;
      ReachNext(start, d);
      forall v | v in Linked(start, d, Reach(start, d)) ensures v in Reach(start, d + 1) {
        var u :| u in Reach(start, d) && v in Out(d, u);
        if u in Before(start, d) {
          ReachOfAFixedWeb(start, d - 1);
          assert v in Out(d - 1, u);
        }
      }
    }

    lemma {:induction false} ReachGrows(start: Url, d: nat, e: nat)
      requires d <= e
      ensures Reach(start, d) <= Reach(start, e)
      decreases e
    {
      hide Reach; hide Linked;
      if d < e {
        ReachGrows(start, d, e - 1);
        ReachNext(start, e - 1);
      }
    }

    lemma NothingLinked(start: Url, d: nat)
      ensures Linked(start, d, {}) == {}
    {
    }

    /** Once a level brings nothing new, no later one does. */
    lemma {:induction false} ReachStops(start: Url, d: nat, e: nat)
      requires d <= e && Reach(start, d) == Before(start, d)
      ensures Reach(start, e) == Before(start, d)
      decreases e
    {
      hide Reach; hide Linked;
      if d < e {
        ReachStops(start, d, e - 1);
        ReachNext(start, e - 1);
        if d < e - 1 {
          ReachStops(start, d, e - 2);
        }
        assert New(start, e - 1) == {};
        NothingLinked(start, e - 1);
      }
    }

    /**
     * The discovered URLs are in breadth-first order: for every depth whose URLs all fit, they come
     * first and nothing else does; otherwise nothing beyond that depth is there.
     */
    ghost predicate BreadthFirst(start: Url, urls: seq<Url>, depth: nat) {
      && Distinct(urls)
      && forall e: nat :: e <= depth ==>
           if |Reach(start, e)| <= |urls| then Elements(urls[..|Reach(start, e)|]) == Reach(start, e)
           else Elements(urls) <= Reach(start, e)
    }

    /** Levels that are complete come first, in order. */
    ghost predicate LevelsDone(start: Url, urls: seq<Url>, depth: nat) {
      && Distinct(urls)
      && forall e: nat :: e < depth ==>
          |Reach(start, e)| <= |urls| && Elements(urls[..|Reach(start, e)|]) == Reach(start, e)
    }

    lemma ReachMonotone(start: Url, d: nat, e: nat)
      requires d <= e
      ensures Reach(start, d) <= Reach(start, e) && |Reach(start, d)| <= |Reach(start, e)|
    {
      ReachGrows(start, d, e);
      SubsetCardinality(Reach(start, d), Reach(start, e));
    }

    /** When the crawl ends, by the page cap or because nothing is left. */
    lemma Finished(start: Url, urls: seq<Url>, d: nat)
      requires d <= maxDepth && LevelsDone(start, urls, d) && Elements(urls) <= Reach(start, d) && |urls| <= maxPages
      requires |urls| == maxPages || Elements(urls) == Reach(start, maxDepth)
      ensures BreadthFirst(start, urls, maxDepth) && Elements(urls) <= Reach(start, maxDepth)
      ensures |urls| == if |Reach(start, maxDepth)| < maxPages then |Reach(start, maxDepth)| else maxPages
      ensures |urls| < maxPages ==> Elements(urls) == Reach(start, maxDepth)
    {
      hide Reach;
      DistinctCardinality(urls);
      forall e: nat | d <= e <= maxDepth
        ensures |urls| <= |Reach(start, e)| && Elements(urls) <= Reach(start, e)
        ensures |urls| == |Reach(start, e)| ==> Elements(urls) == Reach(start, e)
      {
        ReachMonotone(start, d, e);
        SubsetCardinality(Elements(urls), Reach(start, e));
      }
      assert urls[..|urls|] == urls;
    }

    /**
     * Visits pages level by level. `cancelled(d)` says whether the context is done when level `d`
     * begins. Whatever the order in which the fetches of a level finish, the result has the
     * properties below.
     */
    method Crawl(start: Url, cancelled: nat -> bool) returns (urls: seq<Url>, complete: bool)
      requires visited == {} && maxPages > 0
      modifies this`visited
      ensures Distinct(urls) && |urls| <= maxPages && visited == Elements(urls)
      ensures forall u :: u in urls ==> Permitted(start, u)
      ensures complete ==> BreadthFirst(start, urls, maxDepth) && Elements(urls) <= Reach(start, maxDepth)
      ensures complete ==> |urls| == if |Reach(start, maxDepth)| < maxPages then |Reach(start, maxDepth)| else maxPages
      ensures complete && |urls| < maxPages ==> Elements(urls) == Reach(start, maxDepth)
      ensures !complete ==> exists d :: cancelled(d) && Elements(urls) == Before(start, d)
    {
      hide Reach; hide Linked; hide BreadthFirst; hide LevelsDone; hide LevelIs;
      urls := [];
      complete := true;
      var level := [start];
      var depth := 0;
      FirstLevel(start);
      while depth <= maxDepth && level != []
        invariant 0 <= depth <= maxDepth && |urls| < maxPages && Distinct(urls)
        invariant forall u :: u in urls ==> Permitted(start, u)
        invariant LevelsDone(start, urls, depth) && visited == Elements(urls) == Before(start, depth)
        invariant LevelIs(start, level, depth)
        decreases maxDepth - depth
      {
        if cancelled(depth) {
          return urls, false;
        }
        var added;
        urls, added := Admit(start, level, urls);
        LevelAdmitted(start, level, depth, added, visited);
        if |urls| >= maxPages {
          FinishedEarly(start, urls, added, depth);
          return;
        }
        OneMoreLevel(start, urls, added, depth);
        if depth >= maxDepth {
          Finished(start, urls, depth);
          return;
        }
        var links := FetchLevel(depth, added);
        level := NextLevel(links);
        LinksAreNextLevel(start, added, links, level, depth);
        depth := depth + 1;
      }
      NothingLeft(start, urls, depth);
    }

    /** First phase: filters a level, up to the page cap. */
    method Admit(start: Url, level: seq<Url>, before: seq<Url>) returns (urls: seq<Url>, added: seq<Url>)
      requires Distinct(before) && visited == Elements(before) && |before| < maxPages
      modifies this`visited
      ensures urls == before + added && Distinct(urls) && visited == Elements(urls) && |urls| <= maxPages
      ensures forall u :: u in added ==> u in level && Admitted(start, u) && Permitted(start, u) && u !in before
      ensures |urls| < maxPages ==> forall u :: u in level && Admitted(start, u) && u !in before ==> u in added
    {
      urls, added := before, [];
      var pageCount := |before|;
      var i := 0;
      while i < |level|
        invariant 0 <= i <= |level| && pageCount == |urls| < maxPages
        invariant urls == before + added && Distinct(urls) && visited == Elements(urls)
        invariant forall u :: u in added ==> u in level && Admitted(start, u) && u !in before
        invariant forall u :: u in level[..i] && Admitted(start, u) && u !in before ==> u in added
      {
        var u := level[i];
        assert level[..i + 1] == level[..i] + [u];
        i := i + 1;
        if !web.inScope(u) || (sameHostOnly && !web.sameOrigin(start, u)) || u in visited {
          continue;
        }
        PushDistinct(urls, u);
        visited := visited + {u};
        urls := urls + [u];
        added := added + [u];
        pageCount := pageCount + 1;
        if pageCount >= maxPages {
          break;
        }
      }
      assert level[..|level|] == level;
    }

    /** Second phase: the union of the links, in the order in which the workers happen to finish. */
    method FetchLevel(depth: nat, urls: seq<Url>) returns (links: seq<Url>)
      ensures forall v :: v in links <==> exists u :: u in urls && v in Out(depth, u)
    {
      links := [];
      var waiting := Elements(urls);
      while waiting != {}
        invariant waiting <= Elements(urls)
        invariant forall v :: v in links <==> exists u :: u in urls && u !in waiting && v in Out(depth, u)
        decreases waiting
      {
        var u :| u in waiting;
        links := links + Out(depth, u);
        waiting := waiting - {u};
      }
    }

    /** Third phase: new links, each once. */
    method NextLevel(links: seq<Url>) returns (level: seq<Url>)
      ensures Distinct(level) && forall v :: v in level <==> v in links && v !in visited
    {
      level := [];
      var seen: set<Url> := {};
      var i := 0;
      while i < |links|
        invariant 0 <= i <= |links| && Distinct(level) && seen == Elements(level)
        invariant forall v :: v in level <==> v in links[..i] && v !in visited
      {
        var link := links[i];
        assert links[..i + 1] == links[..i] + [link];
        if link !in visited && link !in seen {
          PushDistinct(level, link);
          seen := seen + {link};
          level := level + [link];
        }
        i := i + 1;
      }
      assert links[..|links|] == links;
    }

    lemma FirstLevel(start: Url)
      ensures LevelIs(start, [start], 0) && LevelsDone(start, [], 0)
    {
    }

    /** What is admitted belongs to the level's distance; without the cap, all of it is. */
    lemma LevelAdmitted(start: Url, level: seq<Url>, depth: nat, added: seq<Url>, visited: set<Url>)
      requires LevelIs(start, level, depth)
      requires forall u :: u in added ==> u in level && Admitted(start, u) && u !in Before(start, depth)
      ensures Elements(added) <= Reach(start, depth)
      ensures (forall u :: u in level && Admitted(start, u) && u !in Before(start, depth) ==> u in added) ==>
                Reach(start, depth) == Before(start, depth) + Elements(added) && New(start, depth) == Elements(added)
    {
      if depth > 0 {
        ReachGrows(start, depth - 1, depth);
      }
      forall v | v in Reach(start, depth) ensures Admitted(start, v) {
        ReachAdmitted(start, depth, v);
      }
    }

    lemma {:induction false} ReachAdmitted(start: Url, d: nat, v: Url)
      requires v in Reach(start, d)
      ensures Admitted(start, v)
    {
      if d > 0 && v in Reach(start, d - 1) {
        ReachAdmitted(start, d - 1, v);
      }
    }

    lemma FinishedEarly(start: Url, urls: seq<Url>, added: seq<Url>, depth: nat)
      requires depth <= maxDepth && |urls| == maxPages && Distinct(urls) && |added| <= |urls|
      requires var before := urls[..|urls| - |added|];
               urls == before + added && LevelsDone(start, before, depth) && Elements(before) == Before(start, depth)
      requires Elements(added) <= Reach(start, depth)
      ensures BreadthFirst(start, urls, maxDepth) && Elements(urls) <= Reach(start, maxDepth)
      ensures |urls| == if |Reach(start, maxDepth)| < maxPages then |Reach(start, maxDepth)| else maxPages
    {
      hide Reach; hide Elements; hide BreadthFirst; hide LevelsDone;
      if depth > 0 {
        ReachGrows(start, depth - 1, depth);
      }
      LevelsStay(start, urls, added, depth);
      ElementsConcat(urls[..|urls| - |added|], added);
      Finished(start, urls, depth);
    }

    lemma ElementsConcat(a: seq<Url>, b: seq<Url>)
      ensures Elements(a + b) == Elements(a) + Elements(b)
    {
    }

    /** Appending URLs leaves finished levels as they are. */
    lemma LevelsStay(start: Url, urls: seq<Url>, added: seq<Url>, depth: nat)
      requires |added| <= |urls| && Distinct(urls)
      requires var before := urls[..|urls| - |added|];
               urls == before + added && LevelsDone(start, before, depth)
      ensures LevelsDone(start, urls, depth)
    {
      hide Reach;
      var before := urls[..|urls| - |added|];
      forall e: nat | e < depth
        ensures |Reach(start, e)| <= |urls| && Elements(urls[..|Reach(start, e)|]) == Reach(start, e)
      {
        assert urls[..|Reach(start, e)|] == before[..|Reach(start, e)|];
      }
    }

    lemma OneMoreLevel(start: Url, urls: seq<Url>, added: seq<Url>, depth: nat)
      requires |added| <= |urls| && Distinct(urls)
      requires var before := urls[..|urls| - |added|];
               urls == before + added && LevelsDone(start, before, depth) && Elements(before) == Before(start, depth)
      requires Reach(start, depth) == Before(start, depth) + Elements(added)
      ensures LevelsDone(start, urls, depth + 1) && LevelsDone(start, urls, depth)
      ensures Elements(urls) == Reach(start, depth) == Before(start, depth + 1)
    {
      hide Reach; hide Elements;
      LevelsStay(start, urls, added, depth);
      ElementsConcat(urls[..|urls| - |added|], added);
      DistinctCardinality(urls);
      assert urls[..|urls|] == urls;
    }

    /** New links of a level's pages are the next level. */
    lemma LinksAreNextLevel(start: Url, added: seq<Url>, links: seq<Url>, level: seq<Url>, depth: nat)
      requires New(start, depth) == Elements(added)
      requires forall v :: v in links <==> exists u :: u in added && v in Out(depth, u)
      requires forall v :: v in level <==> v in links && v !in Reach(start, depth)
      ensures LevelIs(start, level, depth + 1)
    {
      hide Reach; hide Linked; hide New; hide Before; hide Out; hide Elements;
      forall v | Admitted(start, v) && v !in Reach(start, depth)
        ensures v in level <==> v in Reach(start, depth + 1)
      {
        NewLink(start, added, depth, v);
      }
      assert Reach(start, depth) == Before(start, depth + 1) by {
        hide *;
        BeforeNext(start, depth);
      }
    }

    lemma BeforeNext(start: Url, depth: nat)
      ensures Before(start, depth + 1) == Reach(start, depth)
    {
    }

    /** A URL first reached at the next depth is linked to by a page of this one. */
    lemma NewLink(start: Url, added: seq<Url>, depth: nat, v: Url)
      requires New(start, depth) == Elements(added) && Admitted(start, v) && v !in Reach(start, depth)
      ensures v in Reach(start, depth + 1) <==> exists u :: u in added && v in Out(depth, u)
    {
      hide Reach; hide New;
      ReachNext(start, depth);
    }

    lemma NothingLeft(start: Url, urls: seq<Url>, depth: nat)
      requires depth <= maxDepth && LevelIs(start, [], depth) && LevelsDone(start, urls, depth)
      requires Elements(urls) == Before(start, depth) && |urls| < maxPages
      ensures BreadthFirst(start, urls, maxDepth) && Elements(urls) == Reach(start, maxDepth)
      ensures |urls| == if |Reach(start, maxDepth)| < maxPages then |Reach(start, maxDepth)| else maxPages
    {
      if depth > 0 {
        ReachGrows(start, depth - 1, depth);
      }
      forall v | v in Reach(start, depth) ensures v in Before(start, depth) {
        ReachAdmitted(start, depth, v);
      }
      ReachStops(start, depth, maxDepth);
      Finished(start, urls, depth);
    }

    /** The level holds the admitted URLs that level `depth` adds, and perhaps some that are not admitted. */
    ghost predicate LevelIs(start: Url, level: seq<Url>, depth: nat) {
      forall v :: Admitted(start, v) && v !in Before(start, depth) ==> (v in level <==> v in Reach(start, depth))
    }
  }
}
