/** Deduplication of findings (SemanticDedup in pkg/scanner/dedup.go). */
module Dedup {
  import opened Findings
  import opened Grouping
  import opened Prelude

  datatype DedupKey = DedupKey(baseUrl: string, param: string, contextClass: string, vectorClass: string,
                               exploitClass: string, paramType: string)

  function KeyOf(lib: Library, f: Finding): DedupKey {
    DedupKey(lib.normalize(f.url), f.parameter, lib.contextClass(f.contexts), lib.vectorClass(f.payload),
             lib.exploitClass(f.payload), f.paramType)
  }

  function KeysOf(lib: Library, findings: seq<Finding>): seq<DedupKey> {
    seq(|findings|, i requires 0 <= i < |findings| => KeyOf(lib, findings[i]))
  }

  /** Two findings are duplicates: every classification agrees. */
  predicate Alike(lib: Library, a: Finding, b: Finding) {
    && lib.normalize(a.url) == lib.normalize(b.url) && a.parameter == b.parameter && a.paramType == b.paramType
    && lib.contextClass(a.contexts) == lib.contextClass(b.contexts)
    && lib.vectorClass(a.payload) == lib.vectorClass(b.payload)
    && lib.exploitClass(a.payload) == lib.exploitClass(b.payload)
  }

  lemma KeysAgreeExactlyWhen(lib: Library, a: Finding, b: Finding)
    ensures KeyOf(lib, a) == KeyOf(lib, b) <==> Alike(lib, a, b)
  {
  }

  /** Nothing is kept twice, and nothing is lost. */
  lemma KeptAreTold(lib: Library, findings: seq<Finding>, kept: seq<Finding>)
    requires Deduplicated(lib, findings, kept)
    ensures forall m, n :: 0 <= m < n < |kept| ==> !Alike(lib, kept[m], kept[n])
    ensures forall f :: f in findings ==> exists g :: g in kept && Alike(lib, f, g)
    ensures forall g :: g in kept ==> g in findings
  {
    hide KeyOf; hide Alike; hide FirstSeen; hide KeptFor;
    var keys := KeysOf(lib, findings);
    forall m, n | 0 <= m < n < |kept| ensures !Alike(lib, kept[m], kept[n]) {
      KeptHasKey(lib, findings, FirstSeen(keys)[m], kept[m]);
      KeptHasKey(lib, findings, FirstSeen(keys)[n], kept[n]);
      KeysAgreeExactlyWhen(lib, kept[m], kept[n]);
    }
    forall f | f in findings ensures exists g :: g in kept && Alike(lib, f, g) {
      var i :| 0 <= i < |findings| && findings[i] == f;
      assert keys[i] in keys;
      SeenMeansPresent(keys, keys[i]);
      var m :| 0 <= m < |FirstSeen(keys)| && FirstSeen(keys)[m] == keys[i];
      KeptHasKey(lib, findings, FirstSeen(keys)[m], kept[m]);
      KeysAgreeExactlyWhen(lib, f, kept[m]);
      assert kept[m] in kept;
    }
    forall g | g in kept ensures g in findings {
      var m :| 0 <= m < |kept| && kept[m] == g;
      KeptIsFound(lib, findings, FirstSeen(keys)[m], g);
    }
  }

  lemma KeptIsFound(lib: Library, findings: seq<Finding>, k: DedupKey, f: Finding)
    requires KeptFor(lib, findings, k, f)
    ensures f in findings
  {
  }

  lemma PositionsArePlaces(lib: Library, findings: seq<Finding>, k: DedupKey)
    ensures Places(findings, Positions(KeysOf(lib, findings), k))
  {
    var p := Positions(KeysOf(lib, findings), k);
    forall m | 0 <= m < |p| ensures p[m] < |findings| {
      assert p[m] in p;
    }
  }

  /** `kept` holds, for every key in first-seen order, the earliest best finding with that key. */
  ghost predicate Deduplicated(lib: Library, findings: seq<Finding>, kept: seq<Finding>) {
    var keys := KeysOf(lib, findings);
    && |kept| == |FirstSeen(keys)|
    && forall m :: 0 <= m < |kept| ==> KeptFor(lib, findings, FirstSeen(keys)[m], kept[m])
  }

  ghost predicate KeptFor(lib: Library, findings: seq<Finding>, k: DedupKey, f: Finding) {
    PositionsArePlaces(lib, findings, k);
    exists i :: 0 <= i < |findings| && findings[i] == f && IsBest(findings, Positions(KeysOf(lib, findings), k), i)
  }

  /** What is kept has the key it is kept for. */
  lemma KeptHasKey(lib: Library, findings: seq<Finding>, k: DedupKey, f: Finding)
    requires KeptFor(lib, findings, k, f)
    ensures KeyOf(lib, f) == k
  {
    PositionsArePlaces(lib, findings, k);
    var i :| 0 <= i < |findings| && findings[i] == f && IsBest(findings, Positions(KeysOf(lib, findings), k), i);
    assert i in Positions(KeysOf(lib, findings), k);
  }

  lemma {:induction false} DistinctKeysAreFirstSeen(keys: seq<DedupKey>)
    requires Distinct(keys)
    ensures FirstSeen(keys) == keys
  {
    if keys != [] {
      var init := keys[..|keys| - 1];
      DistinctKeysAreFirstSeen(init);
      assert keys == init + [keys[|keys| - 1]];
    }
  }

  /** Deduplicating twice changes nothing. */
  lemma DedupIsIdempotent(lib: Library, findings: seq<Finding>, kept: seq<Finding>, again: seq<Finding>)
    requires Deduplicated(lib, findings, kept) && Deduplicated(lib, kept, again)
    ensures again == kept
  {
    hide FirstSeen; hide KeptFor;
    var keys, keptKeys := FirstSeen(KeysOf(lib, findings)), KeysOf(lib, kept);
    forall m | 0 <= m < |kept| ensures keptKeys[m] == keys[m] {
      KeptHasKey(lib, findings, keys[m], kept[m]);
    }
    assert keptKeys == keys;
    DistinctKeysAreFirstSeen(keptKeys);
    forall m | 0 <= m < |kept| ensures again[m] == kept[m] {
      OnlyOneToKeep(lib, kept, m, again[m]);
    }
  }

  lemma OnlyOneToKeep(lib: Library, kept: seq<Finding>, m: nat, f: Finding)
    requires m < |kept| && Distinct(KeysOf(lib, kept)) && KeptFor(lib, kept, KeysOf(lib, kept)[m], f)
    ensures f == kept[m]
  {
    var keys := KeysOf(lib, kept);
    PositionsArePlaces(lib, kept, keys[m]);
    var i :| 0 <= i < |kept| && kept[i] == f && IsBest(kept, Positions(keys, keys[m]), i);
    assert i in Positions(keys, keys[m]);
  }

  /** The earliest best finding of a key among the first `n`. */
  ghost predicate BestSoFar(lib: Library, findings: seq<Finding>, n: nat, k: DedupKey, i: nat)
    requires n <= |findings|
  {
    var group := Positions(KeysOf(lib, findings)[..n], k);
    Places(findings, group) && IsBest(findings, group, i)
  }

  lemma BestSoFarNext(lib: Library, findings: seq<Finding>, n: nat, i: nat)
    requires n < |findings| && BestSoFar(lib, findings, n, KeyOf(lib, findings[n]), i)
    ensures i < |findings|
    ensures BestSoFar(lib, findings, n + 1, KeyOf(lib, findings[n]), if Better(findings[i], findings[n]) then n else i)
  {
    var keys, k := KeysOf(lib, findings), KeyOf(lib, findings[n]);
    var group := Positions(keys[..n], k);
    assert keys[..n + 1] == keys[..n] + [k];
    PositionsOfAppend(keys[..n], k, k);
    forall m | 0 <= m < |group| ensures group[m] < n {
      assert group[m] in group;
    }
    BestNext(findings, group, i, n);
  }

  lemma FirstSoFar(lib: Library, findings: seq<Finding>, n: nat)
    requires n < |findings| && KeyOf(lib, findings[n]) !in KeysOf(lib, findings)[..n]
    ensures BestSoFar(lib, findings, n + 1, KeyOf(lib, findings[n]), n)
  {
    var keys, k := KeysOf(lib, findings), KeyOf(lib, findings[n]);
    assert keys[..n + 1] == keys[..n] + [k];
    PositionsOfAppend(keys[..n], k, k);
    NoPositions(keys[..n], k);
    BestOfOne(findings, n);
  }

  /** The tables after the first `n` findings. */
  ghost predicate SeenSoFar(lib: Library, findings: seq<Finding>, n: nat, seen: map<DedupKey, nat>,
                            order: seq<DedupKey>)
    requires n <= |findings|
  {
    && order == FirstSeen(KeysOf(lib, findings)[..n]) && seen.Keys == Elements(order)
    && forall k :: k in seen ==> BestSoFar(lib, findings, n, k, seen[k])
  }

  lemma SeenOld(lib: Library, findings: seq<Finding>, n: nat, seen: map<DedupKey, nat>, order: seq<DedupKey>)
    requires n < |findings| && SeenSoFar(lib, findings, n, seen, order) && KeyOf(lib, findings[n]) in seen
    ensures var k := KeyOf(lib, findings[n]);
            && seen[k] < |findings|
            && SeenSoFar(lib, findings, n + 1, if Better(findings[seen[k]], findings[n]) then seen[k := n]
                         else seen, order)
  {
    hide FirstSeen; hide BestSoFar; hide Better; hide KeyOf;
    var keys, key := KeysOf(lib, findings), KeyOf(lib, findings[n]);
    TakeNext(KeysOf(lib, findings), n);
    SeenMeansPresent(keys[..n], key);
    FirstSeenOfAppend(keys[..n], key);
    BestSoFarNext(lib, findings, n, seen[key]);
    forall k | k in seen && k != key ensures BestSoFar(lib, findings, n + 1, k, seen[k]) {
      BestSoFarOther(lib, findings, n, k, seen[k]);
    }
  }

  lemma SeenNew(lib: Library, findings: seq<Finding>, n: nat, seen: map<DedupKey, nat>, order: seq<DedupKey>)
    requires n < |findings| && SeenSoFar(lib, findings, n, seen, order) && KeyOf(lib, findings[n]) !in seen
    ensures var k := KeyOf(lib, findings[n]); SeenSoFar(lib, findings, n + 1, seen[k := n], order + [k])
  {
    hide FirstSeen; hide BestSoFar; hide Better; hide KeyOf;
    var keys, key := KeysOf(lib, findings), KeyOf(lib, findings[n]);
    TakeNext(KeysOf(lib, findings), n);
    SeenMeansPresent(keys[..n], key);
    FirstSeenOfAppend(keys[..n], key);
    FirstSoFar(lib, findings, n);
    forall k | k in seen && k != key ensures BestSoFar(lib, findings, n + 1, k, seen[k]) {
      BestSoFarOther(lib, findings, n, k, seen[k]);
    }
  }

  lemma BestSoFarOther(lib: Library, findings: seq<Finding>, n: nat, k: DedupKey, i: nat)
    requires n < |findings| && k != KeyOf(lib, findings[n]) && BestSoFar(lib, findings, n, k, i)
    ensures BestSoFar(lib, findings, n + 1, k, i)
  {
    var keys := KeysOf(lib, findings);
    assert keys[..n + 1] == keys[..n] + [keys[n]];
    PositionsOfAppend(keys[..n], keys[n], k);
  }

  /** Keeps the best finding of every key. */
  method SemanticDedup(lib: Library, findings: seq<Finding>) returns (result: seq<Finding>)
    ensures Deduplicated(lib, findings, result)
    ensures forall m, n :: 0 <= m < n < |result| ==> !Alike(lib, result[m], result[n])
    ensures forall f :: f in findings ==> exists g :: g in result && Alike(lib, f, g)
  {
    hide SeenSoFar; hide Better;
    var seen: map<DedupKey, nat> := map[];
    var order: seq<DedupKey> := [];
    var i := 0;
    NothingSeen(lib, findings);
    while i < |findings|
      invariant 0 <= i <= |findings| && SeenSoFar(lib, findings, i, seen, order)
    {
      var key := KeyOf(lib, findings[i]);
      if key in seen {
        SeenOld(lib, findings, i, seen, order);
        if Better(findings[seen[key]], findings[i]) {
          seen := seen[key := i];
        }
      } else {
        SeenNew(lib, findings, i, seen, order);
        seen := seen[key := i];
        order := order + [key];
      }
      i := i + 1;
    }
    result := Collect(lib, findings, seen, order);
    KeptAreTold(lib, findings, result);
  }

  lemma NothingSeen(lib: Library, findings: seq<Finding>)
    ensures SeenSoFar(lib, findings, 0, map[], [])
  {
    assert KeysOf(lib, findings)[..0] == [];
  }

  /** The representatives in the order of their keys. */
  method Collect(lib: Library, findings: seq<Finding>, seen: map<DedupKey, nat>, order: seq<DedupKey>)
    returns (result: seq<Finding>)
    requires SeenSoFar(lib, findings, |findings|, seen, order)
    ensures Deduplicated(lib, findings, result)
  {
    hide KeptFor; hide BestSoFar; hide FirstSeen;
    result := [];
    var j := 0;
    assert KeysOf(lib, findings)[..|findings|] == KeysOf(lib, findings);
    while j < |order|
      invariant 0 <= j <= |order| && |result| == j
      invariant forall m :: 0 <= m < j ==> KeptFor(lib, findings, order[m], result[m])
    {
      assert order[j] in Elements(order);
      BestIsKept(lib, findings, order[j], seen[order[j]]);
      result := result + [findings[seen[order[j]]]];
      j := j + 1;
    }
  }

  lemma BestIsKept(lib: Library, findings: seq<Finding>, k: DedupKey, i: nat)
    requires BestSoFar(lib, findings, |findings|, k, i)
    ensures i < |findings| && KeptFor(lib, findings, k, findings[i])
  {
    assert KeysOf(lib, findings)[..|findings|] == KeysOf(lib, findings);
  }
}
