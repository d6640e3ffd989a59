/**
 * Grouping a list by keys, as several parts of the scanner do it: groups in the order in which their
 * keys are first seen, members in list order.
 */
module Grouping {
  import opened Prelude

  /** Where a key occurs, in order. */
  function Positions<K(==)>(keys: seq<K>, k: K): (r: seq<nat>)
    ensures forall i :: i in r <==> 0 <= i < |keys| && keys[i] == k
    ensures forall j, l :: 0 <= j < l < |r| ==> r[j] < r[l]
  {
    if keys == [] then []
    else
      var rest := Positions(keys[..|keys| - 1], k);
      assert forall j :: 0 <= j < |rest| ==> rest[j] in rest;
      if keys[|keys| - 1] == k then rest + [|keys| - 1] else rest
  }

  /** The distinct keys, in first-seen order. */
  function FirstSeen<K(==)>(keys: seq<K>): (r: seq<K>)
    ensures Distinct(r)
    ensures Elements(r) == Elements(keys)
  {
    if keys == [] then []
    else
      var rest := FirstSeen(keys[..|keys| - 1]);
      var k := keys[|keys| - 1];
      assert keys == keys[..|keys| - 1] + [k];
      assert Elements(keys) == Elements(keys[..|keys| - 1]) + {k};
      assert k in rest <==> k in Elements(rest);
      if k in rest then rest else
        assert Elements(rest + [k]) == Elements(rest) + {k};
        rest + [k]
  }

  lemma SeenMeansPresent<K>(keys: seq<K>, k: K)
    ensures k in FirstSeen(keys) <==> k in keys
  {
    assert k in Elements(FirstSeen(keys)) <==> k in Elements(keys);
  }

  lemma TakeNext<K>(keys: seq<K>, n: nat)
    requires n < |keys|
    ensures keys[..n + 1] == keys[..n] + [keys[n]]
  {
  }

  lemma PositionsOfAppend<K>(keys: seq<K>, k: K, q: K)
    ensures Positions(keys + [k], q) == if q == k then Positions(keys, q) + [|keys|] else Positions(keys, q)
  {
    assert (keys + [k])[..|keys + [k]| - 1] == keys;
  }

  lemma FirstSeenOfAppend<K>(keys: seq<K>, k: K)
    ensures FirstSeen(keys + [k]) == if k in keys then FirstSeen(keys) else FirstSeen(keys) + [k]
  {
    assert (keys + [k])[..|keys + [k]| - 1] == keys;
    assert k in FirstSeen(keys) <==> k in Elements(FirstSeen(keys));
  }

  /** A key that does not occur has no positions. */
  lemma NoPositions<K>(keys: seq<K>, k: K)
    requires k !in keys
    ensures Positions(keys, k) == []
  {
    if Positions(keys, k) != [] {
      assert Positions(keys, k)[0] in Positions(keys, k);
    }
  }

  /** The groups, as positions. */
  function Groups<K(==)>(keys: seq<K>): (r: seq<seq<nat>>)
    ensures |r| == |FirstSeen(keys)|
  {
    seq(|FirstSeen(keys)|, j requires 0 <= j < |FirstSeen(keys)| => Positions(keys, FirstSeen(keys)[j]))
  }

  /** Every position below `n` lies in exactly one group, and groups are in list order. */
  ghost predicate Partition(groups: seq<seq<nat>>, n: nat) {
    && (forall j, m :: 0 <= j < |groups| && 0 <= m < |groups[j]| ==> groups[j][m] < n)
    && (forall j, m, k :: 0 <= j < |groups| && 0 <= m < k < |groups[j]| ==> groups[j][m] < groups[j][k])
    && (forall j, k, m, l :: 0 <= j < k < |groups| && 0 <= m < |groups[j]| && 0 <= l < |groups[k]| ==>
        groups[j][m] != groups[k][l])
    && (forall x :: 0 <= x < n ==> Somewhere(groups, x))
  }

  ghost predicate Somewhere(groups: seq<seq<nat>>, x: nat) {
    exists j :: 0 <= j < |groups| && x in groups[j]
  }

  lemma GroupsArePartition<K>(keys: seq<K>)
    ensures Partition(Groups(keys), |keys|)
  {
    var groups, seen := Groups(keys), FirstSeen(keys);
    forall x | 0 <= x < |keys| ensures Somewhere(groups, x) {
      assert keys[x] in Elements(seen);
      var j :| 0 <= j < |seen| && seen[j] == keys[x];
      assert x in groups[j];
    }
    forall j, k, m, l | 0 <= j < k < |groups| && 0 <= m < |groups[j]| && 0 <= l < |groups[k]|
      ensures groups[j][m] != groups[k][l]
    {
      assert groups[j][m] in groups[j] && groups[k][l] in groups[k];
    }
    forall j, m | 0 <= j < |groups| && 0 <= m < |groups[j]| ensures groups[j][m] < |keys| {
      assert groups[j][m] in groups[j];
    }
  }

  /** Groups have members, and those share the group's key. */
  lemma GroupMembers<K>(keys: seq<K>, j: nat)
    requires j < |Groups(keys)|
    ensures Groups(keys)[j] != []
            && forall x :: x in Groups(keys)[j] <==> 0 <= x < |keys| && keys[x] == FirstSeen(keys)[j]
  {
    var k := FirstSeen(keys)[j];
    assert k in Elements(FirstSeen(keys)) && k in Elements(keys);
    var x :| 0 <= x < |keys| && keys[x] == k;
    assert x in Positions(keys, k);
  }

  /** Groups positions with the help of a table from keys to groups. */
  method Group<K(==)>(keys: seq<K>) returns (groups: seq<seq<nat>>)
    ensures groups == Groups(keys)
  {
    hide Groups; hide FirstSeen;
    NoGroups<K>();
    groups := [];
    var indices: map<K, nat> := map[];
    var i := 0;
    assert keys[..0] == [];
    while i < |keys|
      invariant 0 <= i <= |keys| && groups == Groups(keys[..i])
      invariant indices.Keys == Elements(FirstSeen(keys[..i]))
      invariant forall k :: k in indices ==> indices[k] < |groups| && FirstSeen(keys[..i])[indices[k]] == k
    {
      var key := keys[i];
      assert keys[..i + 1] == keys[..i] + [key];
      FirstSeenOfAppend(keys[..i], key);
      if key in indices {
        GroupsOld(keys[..i], key, indices[key]);
      } else {
        GroupsNew(keys[..i], key);
        indices := indices[key := |groups|];
        groups := groups + [[]];
        assert groups[indices[key]] + [i] == [i];
      }
      groups := groups[indices[key] := groups[indices[key]] + [i]];
      i := i + 1;
    }
    assert keys[..|keys|] == keys;
  }

  lemma NoGroups<K>()
    ensures Groups<K>([]) == [] && FirstSeen<K>([]) == []
  {
  }

  lemma GroupAt<K>(keys: seq<K>, m: nat)
    requires m < |Groups(keys)|
    ensures Groups(keys)[m] == Positions(keys, FirstSeen(keys)[m])
  {
  }

  /** One more occurrence of a known key joins its group. */
  lemma GroupsOld<K>(keys: seq<K>, k: K, j: nat)
    requires j < |FirstSeen(keys)| && FirstSeen(keys)[j] == k
    ensures k in keys && Groups(keys + [k]) == Groups(keys)[j := Groups(keys)[j] + [|keys|]]
  {
    hide FirstSeen; hide Positions; hide Groups;
    FirstSeenOfAppend(keys, k);
    assert k in Elements(FirstSeen(keys)) && k in Elements(keys);
    var before, after := Groups(keys), Groups(keys + [k]);
    forall m | 0 <= m < |after| ensures after[m] == if m == j then before[m] + [|keys|] else before[m] {
      GroupAt(keys, m); GroupAt(keys + [k], m);
      PositionsOfAppend(keys, k, FirstSeen(keys)[m]);
    }
  }

  /** The first occurrence of a key starts the last group. */
  lemma GroupsNew<K>(keys: seq<K>, k: K)
    requires k !in FirstSeen(keys)
    ensures k !in keys && Groups(keys + [k]) == Groups(keys) + [[|keys|]]
  {
    hide FirstSeen; hide Positions; hide Groups; hide Elements;
    SeenMeansPresent(keys, k);
    FirstSeenOfAppend(keys, k);
    var before, after := Groups(keys), Groups(keys + [k]);
    forall m | 0 <= m < |after| ensures after[m] == (before + [[|keys|]])[m] {
      GroupAt(keys + [k], m);
      if m < |before| {
        GroupAt(keys, m);
        PositionsOfAppend(keys, k, FirstSeen(keys)[m]);
      } else {
        PositionsOfAppend(keys, k, k);
        NoPositions(keys, k);
      }
    }
  }
}
