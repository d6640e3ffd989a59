/**
 * The contents of the analysis cache of pkg/jsanalysis/cache.go as a value: the entries from the
 * most to the least recently used. The cache object (module ParseCache) is proved to hold exactly
 * what these functions say, and the protocol of its callers (module SingleFlight) is built on them.
 */
module CacheStore {
  import opened Prelude
  import opened FlowSyntax
  import opened Analyses

  const MAX_ENTRIES: nat := 256

  /** The 32 bytes of a SHA-256 digest. */
  type Digest = string

  datatype ParseKey = ParseKey(digest: Digest, mode: SourceMode)

  datatype Cached = Cached(key: ParseKey, analysis: Analysis, bytes: nat)

  /** The bytes an analysis is charged with. */
  function Size(a: Analysis): (r: nat)
    ensures r >= 256
  {
    256 + |a.error| + |a.flowError| + 64 * (|a.spans| + |a.calls|) + FlowBytes(a.flows)
  }

  function FlowBytes(flows: seq<Flow>): nat {
    if flows == [] then 0
    else
      var f := flows[|flows| - 1];
      FlowBytes(flows[..|flows| - 1]) + 128 + |f.source.kind| + |f.source.key| + |f.sink|
  }

  /** What the flows of an analysis cost: 128 bytes each, and the bytes of their texts. */
  function FlowCost(flows: seq<Flow>): nat {
    if flows == [] then 0
    else 128 + |flows[0].source.kind| + |flows[0].source.key| + |flows[0].sink| + FlowCost(flows[1..])
  }

  /** What an analysis costs: 256 bytes, the bytes of its errors, and 64 for every span and every call. */
  function Cost(a: Analysis): nat {
    256 + |a.error| + |a.flowError| + 64 * |a.spans| + 64 * |a.calls| + FlowCost(a.flows)
  }

  /** What all analyses held cost. */
  function CostOfAll(lru: seq<Cached>): nat {
    if lru == [] then 0 else Cost(lru[0].analysis) + CostOfAll(lru[1..])
  }

  lemma {:induction false} FlowCostLast(flows: seq<Flow>, f: Flow)
    ensures FlowCost(flows + [f]) == FlowCost(flows) + 128 + |f.source.kind| + |f.source.key| + |f.sink|
  {
    if flows == [] {
      assert flows + [f] == [f];
    } else {
      assert (flows + [f])[1..] == flows[1..] + [f];
      FlowCostLast(flows[1..], f);
    }
  }

  lemma {:induction false} FlowBytesAreCost(flows: seq<Flow>)
    ensures FlowBytes(flows) == FlowCost(flows)
  {
    if flows != [] {
      var init, last := flows[..|flows| - 1], flows[|flows| - 1];
      FlowBytesAreCost(init);
      FlowCostLast(init, last);
      assert flows == init + [last];
    }
  }

  /** The charge is the cost. */
  lemma SizeIsCost(a: Analysis)
    ensures Size(a) == Cost(a)
  {
    FlowBytesAreCost(a.flows);
  }

  /** What is held costs no more than the budget, and there are at most 256 entries. */
  lemma HeldCost(lru: seq<Cached>, maxBytes: nat)
    requires Bounded(lru, maxBytes) && Accounted(lru)
    ensures CostOfAll(lru) <= maxBytes && |lru| <= 256
  {
    TotalIsCost(lru);
  }

  lemma {:induction false} TotalIsCost(lru: seq<Cached>)
    requires Accounted(lru)
    ensures Total(lru) == CostOfAll(lru)
  {
    if lru != [] {
      assert lru == [lru[0]] + lru[1..];
      TotalConcat([lru[0]], lru[1..]);
      assert Total([lru[0]]) == lru[0].bytes by { assert [lru[0]][..0] == []; }
      SizeIsCost(lru[0].analysis);
      TotalIsCost(lru[1..]);
    }
  }

  /** An analysis that costs no more than the budget is held after it was published, in front; others are not. */
  lemma HeldWhenItFits(lru: seq<Cached>, key: ParseKey, a: Analysis, maxBytes: nat)
    requires Bounded(lru, maxBytes) && Accounted(lru) && !Has(lru, key)
    ensures Has(Insert(lru, key, a, maxBytes), key) <==> Cost(a) <= maxBytes
    ensures Cost(a) <= maxBytes ==>
              Insert(lru, key, a, maxBytes)[0].key == key && Insert(lru, key, a, maxBytes)[0].analysis == a
  {
    SizeIsCost(a);
    InsertKeeps(lru, key, a, maxBytes);
  }

  function Total(lru: seq<Cached>): nat {
    if lru == [] then 0 else Total(lru[..|lru| - 1]) + lru[|lru| - 1].bytes
  }

  predicate Has(lru: seq<Cached>, key: ParseKey) {
    exists i :: 0 <= i < |lru| && lru[i].key == key
  }

  /** No key twice. */
  ghost predicate KeysDistinct(lru: seq<Cached>) {
    forall i, j :: 0 <= i < j < |lru| ==> lru[i].key != lru[j].key
  }

  /** The bounds and the accounting every cache keeps. */
  ghost predicate Bounded(lru: seq<Cached>, maxBytes: nat) {
    KeysDistinct(lru) && |lru| <= MAX_ENTRIES && Total(lru) <= maxBytes
  }

  ghost predicate Accounted(lru: seq<Cached>) {
    forall i :: 0 <= i < |lru| ==> lru[i].bytes == Size(lru[i].analysis)
  }

  /** Where a key is. */
  function Place(lru: seq<Cached>, key: ParseKey): (i: nat)
    requires Has(lru, key)
    ensures i < |lru| && lru[i].key == key
  {
    if lru[0].key == key then 0
    else
      assert Has(lru[1..], key) by {
        var i :| 0 <= i < |lru| && lru[i].key == key;
        assert lru[1..][i - 1].key == key;
      }
      Place(lru[1..], key) + 1
  }

  /** May the `n` most recently used entries stay when `size` bytes are added? */
  predicate Fits(lru: seq<Cached>, n: nat, size: nat, maxBytes: nat)
    requires n <= |lru|
  {
    n < MAX_ENTRIES && Total(lru[..n]) + size <= maxBytes
  }

  /** The number of entries that stay: the most that may. */
  ghost predicate Cut(lru: seq<Cached>, size: nat, maxBytes: nat, n: nat) {
    && n <= |lru| && Fits(lru, n, size, maxBytes)
    && forall m :: n < m <= |lru| ==> !Fits(lru, m, size, maxBytes)
  }

  lemma {:induction false} TotalMonotone(lru: seq<Cached>, m: nat, n: nat)
    requires m <= n <= |lru|
    ensures Total(lru[..m]) <= Total(lru[..n])
  {
    if m < n {
      assert lru[..n][..n - 1] == lru[..n - 1];
      TotalMonotone(lru, m, n - 1);
    }
  }

  /** An entry small enough for the whole cache always finds room, and how many entries stay is determined. */
  lemma {:induction false} CutExists(lru: seq<Cached>, size: nat, maxBytes: nat, bound: nat) returns (n: nat)
    requires size <= maxBytes && bound <= |lru|
    requires forall m :: bound < m <= |lru| ==> !Fits(lru, m, size, maxBytes)
    ensures Cut(lru, size, maxBytes, n) && n <= bound
    decreases bound
  {
    if Fits(lru, bound, size, maxBytes) {
      n := bound;
    } else {
      assert bound > 0 by {
        assert lru[..0] == [];
      }
      n := CutExists(lru, size, maxBytes, bound - 1);
    }
  }

  /** Fitting is a matter of being short enough, so the cut is the only place where fitting stops. */
  lemma CutIsSharp(lru: seq<Cached>, size: nat, maxBytes: nat, n: nat)
    requires Cut(lru, size, maxBytes, n)
    ensures forall m :: 0 <= m <= |lru| ==> (Fits(lru, m, size, maxBytes) <==> m <= n)
  {
    forall m: nat | m <= n ensures Fits(lru, m, size, maxBytes) {
      TotalMonotone(lru, m, n);
    }
  }

  /** The entries that stay when `size` bytes are added: exactly the shortest least recently used suffix goes. */
  function Evict(lru: seq<Cached>, size: nat, maxBytes: nat): (r: seq<Cached>)
    requires size <= maxBytes
    ensures |r| <= |lru| && r == lru[..|r|] && Cut(lru, size, maxBytes, |r|)
    decreases |lru|
  {
    if Fits(lru, |lru|, size, maxBytes) then
      assert lru[..|lru|] == lru;
      lru
    else
      assert |lru| > 0 by { assert lru[..0] == []; }
      var init := lru[..|lru| - 1];
      assert forall m :: 0 <= m <= |init| ==> Fits(init, m, size, maxBytes) == Fits(lru, m, size, maxBytes) by {
        assert forall m :: 0 <= m <= |init| ==> init[..m] == lru[..m];
      }
      Evict(init, size, maxBytes)
  }

  /** The cache after an analysis is published; one that is too large or already there is not entered. */
  function Insert(lru: seq<Cached>, key: ParseKey, a: Analysis, maxBytes: nat): seq<Cached> {
    if Size(a) > maxBytes || Has(lru, key) then lru
    else [Cached(key, a, Size(a))] + Evict(lru, Size(a), maxBytes)
  }

  lemma {:induction false} TotalConcat(a: seq<Cached>, b: seq<Cached>)
    ensures Total(a + b) == Total(a) + Total(b)
  {
    if b == [] {
      assert a + b == a;
    } else {
      assert (a + b)[..|a + b| - 1] == a + b[..|b| - 1];
      TotalConcat(a, b[..|b| - 1]);
    }
  }

  lemma TouchMembers(lru: seq<Cached>, i: nat)
    requires i < |lru|
    ensures forall c :: c in ToFront(lru, i) <==> c in lru
    ensures forall key :: Has(ToFront(lru, i), key) <==> Has(lru, key)
  {
    var t := ToFront(lru, i);
    ToFrontMembers(lru, i);
    forall key ensures Has(t, key) <==> Has(lru, key) {
      HasMember(t, key); HasMember(lru, key);
    }
  }

  lemma HasMember(lru: seq<Cached>, key: ParseKey)
    ensures Has(lru, key) <==> exists c :: c in lru && c.key == key
  {
  }

  lemma TouchTotal(lru: seq<Cached>, i: nat)
    requires i < |lru|
    ensures Total(ToFront(lru, i)) == Total(lru)
  {
    hide Total;
    var x, a, b := [lru[i]], lru[..i], lru[i + 1..];
    assert lru == a + x + b;
    TotalConcat(a, x); TotalConcat(a + x, b);
    TotalConcat(x, a); TotalConcat(x + a, b);
  }

  /** A hit only reorders: the bounds stay, and every key keeps its analysis. */
  lemma TouchKeeps(lru: seq<Cached>, i: nat, maxBytes: nat)
    requires Bounded(lru, maxBytes) && Accounted(lru) && i < |lru|
    ensures Bounded(ToFront(lru, i), maxBytes) && Accounted(ToFront(lru, i))
    ensures forall c :: c in ToFront(lru, i) <==> c in lru
    ensures forall key :: Has(ToFront(lru, i), key) <==> Has(lru, key)
    ensures ToFront(lru, i)[0] == lru[i]
  {
    hide Total; hide Has;
    ToFrontAt(lru, i);
    TouchMembers(lru, i);
    TouchTotal(lru, i);
  }

  /** Publishing keeps the bounds, and enters nothing but the analysis published. */
  lemma InsertKeeps(lru: seq<Cached>, key: ParseKey, a: Analysis, maxBytes: nat)
    requires Bounded(lru, maxBytes) && Accounted(lru)
    ensures Bounded(Insert(lru, key, a, maxBytes), maxBytes) && Accounted(Insert(lru, key, a, maxBytes))
    ensures forall c :: c in Insert(lru, key, a, maxBytes) ==> c in lru || (c.key == key && c.analysis == a)
    ensures Size(a) <= maxBytes ==> Has(Insert(lru, key, a, maxBytes), key)
  {
    if Size(a) <= maxBytes && !Has(lru, key) {
      var kept, x := Evict(lru, Size(a), maxBytes), Cached(key, a, Size(a));
      TotalConcat([x], kept);
      assert Total([x]) == x.bytes by { assert [x][..0] == []; }
      assert Insert(lru, key, a, maxBytes) == [x] + kept;
      assert ([x] + kept)[0].key == key;
      assert forall j :: 0 < j < |[x] + kept| ==> ([x] + kept)[j] == lru[j - 1];
    }
  }

  /** There is only one cut, so eviction is determined by it. */
  lemma EvictIs(lru: seq<Cached>, size: nat, maxBytes: nat, n: nat)
    requires size <= maxBytes && Cut(lru, size, maxBytes, n)
    ensures Evict(lru, size, maxBytes) == lru[..n]
  {
    var m := |Evict(lru, size, maxBytes)|;
    assert Cut(lru, size, maxBytes, m);
    assert !(m < n) && !(n < m);
  }
}
