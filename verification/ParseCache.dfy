/** The cache object of pkg/jsanalysis/cache.go: its two critical sections and its eviction loop. */
module ParseCache {
  import opened Prelude
  import opened FlowSyntax
  import opened Analyses
  import opened CacheStore

  /** An analysis as callers hold it: its three lists can be changed in place. */
  datatype Evidence = Evidence(spans: array<Span>, calls: array<Span>, flows: array<Flow>, error: string,
                               flowError: string) {
    ghost function Lists(): set<object> {
      {spans, calls, flows}
    }

    /** What it says at the moment. */
    ghost function Says(): Analysis
      reads Lists()
    {
      Analysis(spans[..], calls[..], error, flows[..], flowError)
    }

    /** A copy that shares no list with the original. */
    method Clone() returns (copy: Evidence)
      ensures fresh(copy.Lists()) && copy.Says() == Says()
    {
      var s := new Span[spans.Length](i requires 0 <= i < spans.Length reads spans => spans[i]);
      var c := new Span[calls.Length](i requires 0 <= i < calls.Length reads calls => calls[i]);
      var f := new Flow[flows.Length](i requires 0 <= i < flows.Length reads flows => flows[i]);
      copy := Evidence(s, c, f, error, flowError);
      assert s[..] == spans[..] && c[..] == calls[..] && f[..] == flows[..];
    }

    /** Are the lists filled with these values? */
    ghost predicate Holds(newSpans: nat -> Span, newCalls: nat -> Span, newFlows: nat -> Flow)
      reads Lists()
    {
      && (forall i :: 0 <= i < spans.Length ==> spans[i] == newSpans(i))
      && (forall i :: 0 <= i < calls.Length ==> calls[i] == newCalls(i))
      && (forall i :: 0 <= i < flows.Length ==> flows[i] == newFlows(i))
    }

    /** Puts anything whatever into its lists. */
    method Overwrite(newSpans: nat -> Span, newCalls: nat -> Span, newFlows: nat -> Flow)
      modifies Lists()
      ensures spans != calls ==> Holds(newSpans, newCalls, newFlows)
    {
      forall i | 0 <= i < spans.Length { spans[i] := newSpans(i); }
      forall i | 0 <= i < calls.Length { calls[i] := newCalls(i); }
      forall i | 0 <= i < flows.Length { flows[i] := newFlows(i); }
    }

    /** The bytes the cache charges for it. */
    method Charge() returns (size: nat)
      ensures size == Size(Says())
    {
      size := 256 + |error| + |flowError| + 64 * (spans.Length + calls.Length);
      ghost var fixed := size;
      var i := 0;
      while i < flows.Length
        invariant 0 <= i <= flows.Length
        invariant size == fixed + FlowBytes(flows[..i])
      {
        assert flows[..i + 1][..i] == flows[..i];
        size := size + 128 + |flows[i].source.kind| + |flows[i].source.key| + |flows[i].sink|;
        i := i + 1;
      }
      assert flows[..flows.Length] == flows[..];
    }
  }

  datatype Entry = Entry(key: ParseKey, analysis: Evidence, bytes: nat) {
    ghost function View(): Cached
      reads analysis.Lists()
    {
      Cached(key, analysis.Says(), bytes)
    }
  }

  /** A node of the recency list. */
  class Element {
    const entry: Entry

    constructor (entry: Entry)
      ensures this.entry == entry
    {
      this.entry := entry;
    }
  }

  /** A parse in progress and, once `done`, its result. */
  class Flight {
    var analysis: Option<Evidence>
    var done: bool

    constructor ()
      ensures analysis == None && !done
    {
      analysis, done := None, false;
    }

    /** What a waiter gets once the flight is over. */
    method Await() returns (a: Evidence)
      requires done && analysis.Some?
      ensures fresh(a.Lists()) && a.Says() == analysis.value.Says()
    {
      a := analysis.value.Clone();
    }
  }

  /** The outcome of looking a key up: an answer, a flight to wait for, or a flight to lead. */
  datatype Look = Hit(analysis: Evidence) | Wait(flight: Flight) | Lead(flight: Flight)

  // ---------------------------------------------------------------------------------------------
  // The recency list
  // ---------------------------------------------------------------------------------------------

  /** The lists of the cached analyses. */
  ghost function ListsOf(lru: seq<Element>): set<object> {
    set e, o | e in lru && o in e.entry.analysis.Lists() :: o
  }

  ghost function ViewAt(lru: seq<Element>, i: nat): Cached
    requires i < |lru|
    reads ListsOf(lru)
  {
    assert lru[i].entry.analysis.Lists() <= ListsOf(lru);
    lru[i].entry.View()
  }

  /** The contents, the most recently used entry first. */
  ghost function ViewOf(lru: seq<Element>): (r: seq<Cached>)
    reads ListsOf(lru)
    ensures |r| == |lru|
  {
    seq(|lru|, i requires 0 <= i < |lru| reads ListsOf(lru) => ViewAt(lru, i))
  }

  /** The table and the recency list hold the same nodes. */
  ghost predicate Linked(entries: map<ParseKey, Element>, lru: seq<Element>) {
    && (forall i :: 0 <= i < |lru| ==> lru[i].entry.key in entries && entries[lru[i].entry.key] == lru[i])
    && (forall i, j :: 0 <= i < j < |lru| ==> lru[i].entry.key != lru[j].entry.key)
    && (forall key :: key in entries ==> entries[key] in lru && entries[key].entry.key == key)
  }

  lemma ViewKeys(lru: seq<Element>)
    ensures forall j :: 0 <= j < |lru| ==>
            ViewOf(lru)[j].key == lru[j].entry.key && ViewOf(lru)[j] == ViewAt(lru, j) == lru[j].entry.View()
  {
  }

  /** Where a cached key is, in the list and in the contents. */
  lemma PlaceOf(entries: map<ParseKey, Element>, lru: seq<Element>, key: ParseKey, i: nat)
    requires Linked(entries, lru) && key in entries && i < |lru| && lru[i] == entries[key]
    ensures Has(ViewOf(lru), key) && Place(ViewOf(lru), key) == i
  {
    ViewKeys(lru);
    assert ViewOf(lru)[i].key == key;
  }

  lemma NotCached(entries: map<ParseKey, Element>, lru: seq<Element>, key: ParseKey)
    requires Linked(entries, lru) && key !in entries
    ensures !Has(ViewOf(lru), key)
  {
    ViewKeys(lru);
  }

  lemma MovedMembers(lru: seq<Element>, i: nat)
    requires i < |lru|
    ensures forall e :: e in ToFront(lru, i) <==> e in lru
    ensures ListsOf(ToFront(lru, i)) == ListsOf(lru)
  {
    ToFrontMembers(lru, i);
  }

  lemma MovedLinked(entries: map<ParseKey, Element>, lru: seq<Element>, i: nat)
    requires i < |lru| && Linked(entries, lru)
    ensures Linked(entries, ToFront(lru, i))
  {
    hide ToFront;
    var m := ToFront(lru, i);
    ToFrontAt(lru, i);
    ToFrontMembers(lru, i);
    forall j, k | 0 <= j < k < |m| ensures m[j].entry.key != m[k].entry.key {
      var j', k' := if j == 0 then i else if j <= i then j - 1 else j, if k <= i then k - 1 else k;
      assert m[j] == lru[j'] && m[k] == lru[k'];
      assert if j' < k' then lru[j'].entry.key != lru[k'].entry.key else lru[k'].entry.key != lru[j'].entry.key;
    }
    forall j | 0 <= j < |m| ensures m[j].entry.key in entries && entries[m[j].entry.key] == m[j] {
      assert m[j] in lru;
    }
  }

  lemma MovedView(lru: seq<Element>, i: nat)
    requires i < |lru|
    ensures ViewOf(ToFront(lru, i)) == ToFront(ViewOf(lru), i)
  {
    hide Entry.View; hide ViewOf;
    var m, view, after := ToFront(lru, i), ViewOf(lru), ViewOf(ToFront(lru, i));
    ToFrontAt(lru, i);
    ViewKeys(lru); ViewKeys(m);
    ToFrontAt(view, i);
    forall j | 0 <= j < |m| ensures after[j] == ToFront(view, i)[j] {
      assert after[j] == m[j].entry.View();
      assert view[if j == 0 then i else if j <= i then j - 1 else j] == m[j].entry.View();
    }
  }

  lemma PrefixView(lru: seq<Element>, n: nat)
    requires n <= |lru|
    ensures ViewOf(lru[..n]) == ViewOf(lru)[..n]
  {
    ViewKeys(lru); ViewKeys(lru[..n]);
    assert forall j :: 0 <= j < n ==> ViewAt(lru[..n], j) == ViewAt(lru, j);
  }

  lemma LastUnlinked(entries: map<ParseKey, Element>, lru: seq<Element>)
    requires Linked(entries, lru) && lru != []
    ensures Linked(entries - {lru[|lru| - 1].entry.key}, lru[..|lru| - 1])
  {
    var n := |lru| - 1;
    assert lru == lru[..n] + [lru[n]];
  }

  lemma FrontLinked(entries: map<ParseKey, Element>, lru: seq<Element>, e: Element)
    requires Linked(entries, lru) && e.entry.key !in entries
    ensures Linked(entries[e.entry.key := e], [e] + lru)
  {
  }

  lemma FrontView(lru: seq<Element>, e: Element)
    ensures ViewOf([e] + lru) == [e.entry.View()] + ViewOf(lru)
  {
    hide Entry.View; hide ViewOf;
    var all, view := [e] + lru, [e.entry.View()] + ViewOf(lru);
    ViewKeys(lru); ViewKeys(all);
    forall j | 0 <= j < |all| ensures ViewOf(all)[j] == view[j] {
      assert ViewOf(all)[j] == all[j].entry.View();
      if j > 0 {
        assert ViewOf(lru)[j - 1] == lru[j - 1].entry.View();
      }
    }
  }

  lemma TotalNone(v: seq<Cached>)
    ensures Total(v[..0]) == 0
  {
  }

  lemma TotalLast(v: seq<Cached>, n: nat)
    requires 0 < n <= |v|
    ensures Total(v[..n]) == Total(v[..n - 1]) + v[n - 1].bytes
  {
    assert v[..n][..n - 1] == v[..n - 1];
  }

  lemma TotalOne(c: Cached)
    ensures Total([c]) == c.bytes
  {
    assert [c][..0] == [];
  }

  lemma FitsIs(v: seq<Cached>, n: nat, size: nat, maxBytes: nat)
    requires n <= |v|
    ensures Fits(v, n, size, maxBytes) <==> n < MAX_ENTRIES && Total(v[..n]) + size <= maxBytes
  {
  }

  // ---------------------------------------------------------------------------------------------
  // The cache
  // ---------------------------------------------------------------------------------------------

  class ParseCache {
    var entries: map<ParseKey, Element>
    var lru: seq<Element>                    // the most recently used first
    var bytes: int
    const maxBytes: nat
    var pending: map<ParseKey, Flight>

    constructor (maxBytes: nat)
      ensures Valid() && View() == [] && pending == map[] && this.maxBytes == maxBytes
    {
      entries, lru, bytes, pending := map[], [], 0, map[];
      this.maxBytes := maxBytes;
    }

    ghost function View(): seq<Cached>
      reads this`lru, ListsOf(lru)
    {
      ViewOf(lru)
    }

    /** Flights in progress are told apart and not over. */
    ghost predicate Open()
      reads this`pending, pending.Values`done
    {
      && (forall key :: key in pending ==> !pending[key].done)
      && (forall j, k :: j in pending && k in pending && j != k ==> pending[j] != pending[k])
    }

    ghost predicate Valid()
      reads this, ListsOf(lru), pending.Values
    {
      Linked(entries, lru) && bytes == Total(View()) && Bounded(View(), maxBytes) && Accounted(View()) && Open()
    }

    /**
     * First critical section of a call. A hit moves the entry to the front and hands out a copy of
     * its own; a parse of the same key that is in progress is joined; otherwise the caller parses.
     */
    method LookUp(key: ParseKey) returns (look: Look)
      requires Valid()
      modifies this
      ensures Valid() && ListsOf(lru) == old(ListsOf(lru))
      ensures look.Hit? ==> look.analysis.Lists() !! ListsOf(lru)
      ensures look.Hit? ==>
        && Has(old(View()), key) && View() == ToFront(old(View()), Place(old(View()), key))
        && pending == old(pending)
        && look.analysis.Says() == old(View())[Place(old(View()), key)].analysis && fresh(look.analysis.Lists())
      ensures look.Wait? ==>
        && !Has(old(View()), key) && key in old(pending) && look.flight == old(pending)[key]
        && View() == old(View()) && pending == old(pending)
      ensures look.Lead? ==>
        && !Has(old(View()), key) && key !in old(pending) && fresh(look.flight) && !look.flight.done
        && View() == old(View()) && pending == old(pending)[key := look.flight]
    {
      hide Bounded; hide Total; hide Accounted; hide Linked; hide Has; hide ToFront;
      if key in entries {
        var copy := Answer(key);
        return Hit(copy);
      }
      NotCached(entries, lru, key);
      if key in pending {
        return Wait(pending[key]);
      }
      var flight := new Flight();
      pending := pending[key := flight];
      assert unchanged(ListsOf(lru)) && View() == old(View());
      return Lead(flight);
    }

    /** A hit. */
    method Answer(key: ParseKey) returns (copy: Evidence)
      requires Valid() && key in entries
      modifies this`lru
      ensures Valid() && Has(old(View()), key) && View() == ToFront(old(View()), Place(old(View()), key))
      ensures ListsOf(lru) == old(ListsOf(lru)) && copy.Lists() !! ListsOf(lru)
      ensures copy.Says() == old(View())[Place(old(View()), key)].analysis && fresh(copy.Lists())
    {
      hide Bounded; hide Total; hide Accounted; hide Linked; hide Has; hide ToFront;
      var e := entries[key];
      InList(key);
      var i :| 0 <= i < |lru| && lru[i] == e;
      PlaceOf(entries, lru, key, i);
      ViewKeys(lru);
      copy := e.entry.analysis.Clone();
      assert unchanged(ListsOf(lru)) && View() == old(View());
      MoveToFront(i);
    }

    lemma InList(key: ParseKey)
      requires Linked(entries, lru) && key in entries
      ensures entries[key] in lru
    {
    }

    method MoveToFront(i: nat)
      requires Valid() && i < |lru|
      modifies this`lru
      ensures Valid() && View() == ToFront(old(View()), i) && ListsOf(lru) == old(ListsOf(lru))
    {
      hide Bounded; hide Total; hide Accounted; hide Linked; hide Has;
      MovedMembers(lru, i);
      MovedLinked(entries, lru, i);
      MovedView(lru, i);
      TouchKeeps(View(), i, maxBytes);
      TouchTotal(View(), i);
      lru := [lru[i]] + lru[..i] + lru[i + 1..];
    }

    /**
     * Second critical section of the caller that parsed: every waiter gets the result, and unless it
     * is too large it is entered in place of exactly the least recently used entries that must go.
     */
    method Publish(key: ParseKey, flight: Flight, a: Evidence)
      requires Valid() && key in pending && pending[key] == flight
      modifies this, flight
      ensures Valid() && pending == old(pending) - {key}
      ensures flight.done && flight.analysis.Some?
      ensures fresh(flight.analysis.value.Lists()) && flight.analysis.value.Says() == a.Says() == old(a.Says())
      ensures View() == Insert(old(View()), key, a.Says(), maxBytes)
      ensures ListsOf(lru) <= old(ListsOf(lru)) + flight.analysis.value.Lists()
      ensures old(a.Lists() !! ListsOf(lru)) ==> a.Lists() !! ListsOf(lru)
    {
      hide Bounded; hide Total; hide Accounted; hide Linked; hide Insert; hide ViewOf;
      var copy := Deliver(key, flight, a);
      Enter(key, copy);
      Land(flight, a, copy);
    }

    /** The flight is over. */
    method Land(flight: Flight, ghost a: Evidence, ghost copy: Evidence)
      requires Valid() && flight !in pending.Values
      modifies flight`done
      ensures Valid() && View() == old(View()) && flight.done
      ensures a.Says() == old(a.Says()) && copy.Says() == old(copy.Says())
    {
      hide Bounded; hide Total; hide Accounted; hide Linked; hide ViewOf;
      flight.done := true;
      assert unchanged(ListsOf(lru)) && unchanged(a.Lists()) && unchanged(copy.Lists());
    }

    /** The flight gets a copy of the result and is no longer pending. */
    method Deliver(key: ParseKey, flight: Flight, a: Evidence) returns (copy: Evidence)
      requires Valid() && key in pending && pending[key] == flight
      modifies this`pending, flight`analysis
      ensures Valid() && View() == old(View()) && pending == old(pending) - {key} && lru == old(lru)
      ensures flight !in pending.Values && flight.analysis == Some(copy) && fresh(copy.Lists())
      ensures copy.Says() == a.Says() == old(a.Says())
    {
      hide Bounded; hide Total; hide Accounted; hide Linked; hide ViewOf;
      copy := a.Clone();
      label Cloned:
      flight.analysis := Some(copy);
      pending := pending - {key};
      assert unchanged(ListsOf(lru)) && unchanged(a.Lists()) && unchanged@Cloned(copy.Lists());
      assert View() == old(View());
    }

    /** Enters an analysis that only the cache holds. */
    method Enter(key: ParseKey, copy: Evidence)
      requires Valid()
      modifies this`entries, this`lru, this`bytes
      ensures Valid() && View() == Insert(old(View()), key, copy.Says(), maxBytes)
      ensures ListsOf(lru) <= old(ListsOf(lru)) + copy.Lists()
    {
      hide Bounded; hide Total; hide Accounted; hide Linked; hide Has; hide Open; hide Size; hide Evict; hide ViewOf;
      InsertKeeps(View(), key, copy.Says(), maxBytes);
      var size := copy.Charge();
      assert unchanged(ListsOf(lru)) && unchanged(copy.Lists());
      if size > maxBytes {
        return;
      }
      if key in entries {
        IsCached(key);
        return;
      }
      NotCached(entries, lru, key);
      EnterNew(key, copy, size);
    }

    lemma IsCached(key: ParseKey)
      requires Linked(entries, lru) && key in entries
      ensures Has(View(), key)
    {
      var i :| 0 <= i < |lru| && lru[i] == entries[key];
      PlaceOf(entries, lru, key, i);
    }

    /** Makes room and enters. */
    method EnterNew(key: ParseKey, copy: Evidence, size: nat)
      requires Linked(entries, lru) && bytes == Total(View()) && key !in entries && size <= maxBytes
      modifies this`entries, this`lru, this`bytes
      ensures Linked(entries, lru) && bytes == Total(View())
      ensures View() == [Cached(key, copy.Says(), size)] + Evict(old(View()), size, maxBytes)
      ensures ListsOf(lru) <= old(ListsOf(lru)) + copy.Lists()
    {
      hide Total; hide Linked; hide Evict; hide ListsOf; hide ViewOf;
      MakeRoom(size);
      PushFront(key, copy, size);
    }

    /** Evicts from the back; the list never runs out, because what is entered fits the whole cache. */
    method MakeRoom(size: nat)
      requires Linked(entries, lru) && bytes == Total(View()) && size <= maxBytes
      modifies this`entries, this`lru, this`bytes
      ensures Linked(entries, lru) && bytes == Total(View())
      ensures View() == Evict(old(View()), size, maxBytes) && ListsOf(lru) <= old(ListsOf(lru))
      ensures forall k :: k in entries ==> k in old(entries)
    {
      hide Total; hide Linked; hide Fits;
      ghost var l0, v0 := lru, View();
      ghost var n := |lru|;
      assert l0[..n] == l0 && v0[..n] == v0;
      while |lru| >= MAX_ENTRIES || bytes + size > maxBytes
        invariant n == |lru| <= |l0| && lru == l0[..n] && unchanged(ListsOf(l0))
        invariant Linked(entries, lru) && bytes == Total(v0[..n])
        invariant forall m :: n < m <= |l0| ==> !Fits(v0, m, size, maxBytes)
        invariant forall k :: k in entries ==> k in old(entries)
        decreases |lru|
      {
        if |lru| == 0 {
          TotalNone(v0);
          assert false;
          break;
        }
        var e := lru[|lru| - 1];
        FitsIs(v0, n, size, maxBytes);
        LastUnlinked(entries, lru);
        TotalLast(v0, n);
        ViewKeys(l0);
        entries := entries - {e.entry.key};
        bytes := bytes - e.entry.bytes;
        lru := lru[..|lru| - 1];
        n := n - 1;
        assert l0[..n + 1][..n] == l0[..n];
      }
      FitsIs(v0, n, size, maxBytes);
      EvictIs(v0, size, maxBytes, n);
      PrefixView(l0, n);
    }

    method PushFront(key: ParseKey, copy: Evidence, size: nat)
      requires Linked(entries, lru) && bytes == Total(View()) && key !in entries
      modifies this`entries, this`lru, this`bytes
      ensures Linked(entries, lru) && bytes == Total(View())
      ensures View() == [Cached(key, copy.Says(), size)] + old(View())
      ensures ListsOf(lru) <= old(ListsOf(lru)) + copy.Lists()
    {
      hide Total; hide Linked;
      var e := new Element(Entry(key, copy, size));
      assert unchanged(ListsOf(lru)) && unchanged(copy.Lists());
      FrontLinked(entries, lru, e);
      FrontView(lru, e);
      TotalConcat([e.entry.View()], ViewOf(lru));
      TotalOne(e.entry.View());
      entries := entries[key := e];
      lru := [e] + lru;
      bytes := bytes + size;
      assert unchanged(ListsOf(lru)) && unchanged(copy.Lists());
    }
  }

  // ---------------------------------------------------------------------------------------------
  // Callers that change what they were given
  // ---------------------------------------------------------------------------------------------

  /** Whoever writes outside the lists of a cache cannot change what it holds. */
  method OverwriteOutside(c: ParseCache, a: Evidence, newSpans: nat -> Span, newCalls: nat -> Span,
                          newFlows: nat -> Flow)
    requires c.Valid() && a.Lists() !! ListsOf(c.lru)
    modifies a.Lists()
    ensures c.Valid() && c.View() == old(c.View())
    ensures a.spans != a.calls ==> a.Holds(newSpans, newCalls, newFlows)
  {
    hide ParseCache.Valid; hide ViewOf;
    a.Overwrite(newSpans, newCalls, newFlows);
    assert unchanged(c) && unchanged(ListsOf(c.lru)) && unchanged(c.pending.Values);
  }

  /** A caller with a hit may overwrite its evidence: the next caller still gets what was cached. */
  method HitAndOverwrite(c: ParseCache, key: ParseKey, newSpans: nat -> Span, newCalls: nat -> Span,
                         newFlows: nat -> Flow)
    returns (first: Evidence, second: Evidence)
    requires c.Valid() && Has(c.View(), key)
    modifies c
    ensures c.Valid() && Has(old(c.View()), key)
    ensures second.Says() == old(c.View())[Place(old(c.View()), key)].analysis
    ensures first.spans != first.calls ==> first.Holds(newSpans, newCalls, newFlows)
  {
    hide Bounded; hide Total; hide Accounted; hide Linked; hide ViewOf; hide ToFront;
    ghost var view, i := c.View(), Place(c.View(), key);
    var look := c.LookUp(key);
    first := look.analysis;
    OverwriteOutside(c, first, newSpans, newCalls, newFlows);
    FrontIsFound(view, i, key);
    look := c.LookUp(key);
    second := look.analysis;
  }

  lemma FrontIsFound(view: seq<Cached>, i: nat, key: ParseKey)
    requires i < |view| && view[i].key == key
    ensures Has(ToFront(view, i), key) && Place(ToFront(view, i), key) == 0 && ToFront(view, i)[0] == view[i]
  {
    ToFrontAt(view, i);
    assert ToFront(view, i)[0].key == key;
  }

  /** The caller that parsed may overwrite its evidence: the cache and every waiter keep what was published. */
  method PublishAndOverwrite(c: ParseCache, key: ParseKey, flight: Flight, a: Evidence,
                             newSpans: nat -> Span, newCalls: nat -> Span, newFlows: nat -> Flow)
    returns (waiter: Evidence)
    requires c.Valid() && key in c.pending && c.pending[key] == flight && a.Lists() !! ListsOf(c.lru)
    modifies c, flight, a.Lists()
    ensures c.Valid() && c.View() == Insert(old(c.View()), key, old(a.Says()), c.maxBytes)
    ensures waiter.Says() == old(a.Says())
    ensures a.spans != a.calls ==> a.Holds(newSpans, newCalls, newFlows)
  {
    hide ParseCache.Valid; hide ViewOf; hide Insert; hide ListsOf;
    c.Publish(key, flight, a);
    waiter := OverwriteAndAwait(c, flight, a, newSpans, newCalls, newFlows);
  }

  /** Writing to evidence that neither the cache nor a flight holds changes neither. */
  method OverwriteAndAwait(c: ParseCache, flight: Flight, a: Evidence,
                           newSpans: nat -> Span, newCalls: nat -> Span,
                               newFlows: nat -> Flow) returns (waiter: Evidence)
    requires c.Valid() && a.Lists() !! ListsOf(c.lru)
    requires flight.done && flight.analysis.Some? && a.Lists() !! flight.analysis.value.Lists()
    modifies a.Lists()
    ensures c.Valid() && c.View() == old(c.View())
    ensures waiter.Says() == old(flight.analysis.value.Says())
    ensures a.spans != a.calls ==> a.Holds(newSpans, newCalls, newFlows)
  {
    hide ParseCache.Valid; hide ViewOf;
    ghost var kept := flight.analysis.value;
    OverwriteOutside(c, a, newSpans, newCalls, newFlows);
    assert unchanged(kept.Lists()) && unchanged(flight);
    waiter := flight.Await();
    assert unchanged(c) && unchanged(ListsOf(c.lru)) && unchanged(c.pending.Values);
  }
}
