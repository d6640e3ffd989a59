/** Sharing a payload budget across contexts and quote breakouts (pkg/scanner/payload_budget.go). */
module PayloadBudget {
  import opened Grouping
  import opened Prelude

  datatype Context = JsString | HtmlAttrValue | OtherContext(name: string)

  /** A payload; `id` stands for everything that plays no part in the selection. */
  datatype Payload = Payload(context: Context, value: string, id: int)

  /** Payloads with the same key share one queue. */
  datatype GroupKey = GroupKey(context: Context, quote: Option<char>)

  function KeyOf(p: Payload): GroupKey {
    GroupKey(p.context,
             if (p.context.JsString? || p.context.HtmlAttrValue?) && p.value != []
                 && (p.value[0] == '\'' || p.value[0] == '"')
             then Some(p.value[0]) else None)
  }

  function KeysOf(input: seq<Payload>): seq<GroupKey> {
    seq(|input|, i requires 0 <= i < |input| => KeyOf(input[i]))
  }

  // ---------------------------------------------------------------------------------------------
  // Rounds
  // ---------------------------------------------------------------------------------------------

  /** The picks after `round` full rounds and the first `g` groups of the next one. */
  function Picked(groups: seq<seq<nat>>, round: nat, g: nat): seq<nat>
    requires g <= |groups|
    decreases round, g
  {
    if g > 0 then Picked(groups, round, g - 1) + (if round < |groups[g - 1]| then [groups[g - 1][round]] else [])
    else if round > 0 then Picked(groups, round - 1, |groups|)
    else []
  }

  /** How far group `j` has been taken by then. */
  function Share(groups: seq<seq<nat>>, round: nat, g: nat, j: nat): nat
    requires j < |groups|
  {
    var turns := if j < g then round + 1 else round;
    if turns < |groups[j]| then turns else |groups[j]|
  }

  /** Those picks that belong to one group, in the order of the picks. */
  function Within(picks: seq<nat>, group: seq<nat>): seq<nat> {
    if picks == [] then []
    else
      var rest := Within(picks[..|picks| - 1], group);
      if picks[|picks| - 1] in group then rest + [picks[|picks| - 1]] else rest
  }

  lemma WithinNext(picks: seq<nat>, x: nat, group: seq<nat>)
    ensures Within(picks + [x], group) == Within(picks, group) + (if x in group then [x] else [])
  {
    assert (picks + [x])[..|picks|] == picks;
  }

  lemma ShareNext(groups: seq<seq<nat>>, round: nat, g: nat, j: nat)
    requires 0 < g <= |groups| && j < |groups|
    ensures groups[j][..Share(groups, round, g, j)]
         == groups[j][..Share(groups, round, g - 1, j)]
             + (if j == g - 1 && round < |groups[j]| then [groups[j][round]] else [])
  {
  }

  lemma InOtherGroup(groups: seq<seq<nat>>, n: nat, j: nat, k: nat, m: nat)
    requires Partition(groups, n) && j < |groups| && k < |groups| && m < |groups[k]|
    ensures groups[k][m] in groups[j] <==> j == k
  {
  }

  /** From every group exactly its first `Share` places have been taken, in order. */
  lemma {:induction false} SharesAreTaken(groups: seq<seq<nat>>, n: nat, round: nat, g: nat, j: nat)
    requires Partition(groups, n) && g <= |groups| && j < |groups|
    ensures Within(Picked(groups, round, g), groups[j]) == groups[j][..Share(groups, round, g, j)]
    decreases round, g
  {
    hide Partition; hide Within;
    if g > 0 {
      SharesAreTaken(groups, n, round, g - 1, j);
      ShareNext(groups, round, g, j);
      if round < |groups[g - 1]| {
        WithinNext(Picked(groups, round, g - 1), groups[g - 1][round], groups[j]);
        InOtherGroup(groups, n, j, g - 1, round);
      } else {
        assert Picked(groups, round, g) == Picked(groups, round, g - 1);
      }
    } else if round > 0 {
      SharesAreTaken(groups, n, round - 1, |groups|, j);
    } else {
      assert Within([], groups[j]) == [] by { WithinNone(groups[j]); }
    }
  }

  lemma WithinNone(group: seq<nat>)
    ensures Within([], group) == []
  {
  }

  /** No place is picked twice. */
  lemma {:induction false} PicksAreDistinct(groups: seq<seq<nat>>, n: nat, round: nat, g: nat)
    requires Partition(groups, n) && g <= |groups|
    ensures Distinct(Picked(groups, round, g))
    ensures forall x :: x in Picked(groups, round, g) ==> x < n
    decreases round, g
  {
    if g > 0 {
      PicksAreDistinct(groups, n, round, g - 1);
      if round < |groups[g - 1]| {
        var x := groups[g - 1][round];
        SharesAreTaken(groups, n, round, g - 1, g - 1);
        assert groups[g - 1][..round] == Within(Picked(groups, round, g - 1), groups[g - 1]);
        WithinHas(Picked(groups, round, g - 1), groups[g - 1], x);
        PushDistinct(Picked(groups, round, g - 1), x);
      }
    } else if round > 0 {
      PicksAreDistinct(groups, n, round - 1, |groups|);
    }
  }

  lemma {:induction false} WithinHas(picks: seq<nat>, group: seq<nat>, x: nat)
    ensures x in Within(picks, group) <==> x in picks && x in group
  {
    if picks != [] {
      WithinHas(picks[..|picks| - 1], group, x);
      assert picks == picks[..|picks| - 1] + [picks[|picks| - 1]];
    }
  }

  /** After as many rounds as there are places, everything has been picked. */
  lemma EverythingIsPicked(groups: seq<seq<nat>>, n: nat)
    requires Partition(groups, n)
    ensures |Picked(groups, n, 0)| >= n
  {
    var picks := Picked(groups, n, 0);
    forall x | x in Range(0, n) ensures x in picks {
      assert Somewhere(groups, x);
      var j :| 0 <= j < |groups| && x in groups[j];
      GroupIsShort(groups, n, j);
      SharesAreTaken(groups, n, n, 0, j);
      assert groups[j][..|groups[j]|] == groups[j];
      WithinHas(picks, groups[j], x);
    }
    PicksAreDistinct(groups, n, n, 0);
    DistinctCardinality(picks);
    DistinctCardinality(Range(0, n));
    SubsetCardinality(Elements(Range(0, n)), Elements(picks));
  }

  lemma GroupIsShort(groups: seq<seq<nat>>, n: nat, j: nat)
    requires Partition(groups, n) && j < |groups|
    ensures |groups[j]| <= n
  {
    var g := groups[j];
    assert Distinct(g);
    DistinctCardinality(g);
    forall x | x in g ensures x in Range(0, n) {
      assert Range(0, n)[x] == x;
    }
    DistinctCardinality(Range(0, n));
    SubsetCardinality(Elements(g), Elements(Range(0, n)));
  }

  lemma {:induction false} MoreRoundsPickMore(groups: seq<seq<nat>>, round: nat, round': nat)
    requires round <= round'
    ensures |Picked(groups, round, 0)| <= |Picked(groups, round', 0)|
    decreases round'
  {
    if round < round' {
      MoreRoundsPickMore(groups, round, round' - 1);
      RoundPicksMore(groups, round' - 1, |groups|);
    }
  }

  lemma {:induction false} RoundPicksMore(groups: seq<seq<nat>>, round: nat, g: nat)
    requires g <= |groups|
    ensures |Picked(groups, round, 0)| <= |Picked(groups, round, g)|
  {
    if g > 0 {
      RoundPicksMore(groups, round, g - 1);
    }
  }

  // ---------------------------------------------------------------------------------------------
  // The selection
  // ---------------------------------------------------------------------------------------------

  /** The payloads at the given places. */
  function Selection(input: seq<Payload>, picks: seq<nat>): seq<Payload>
    requires forall x :: x in picks ==> x < |input|
  {
    seq(|picks|, i requires 0 <= i < |picks| => assert picks[i] in picks; input[picks[i]])
  }

  /** How many payloads with a key were picked. */
  function Taken(input: seq<Payload>, picks: seq<nat>, key: GroupKey): nat {
    |Within(picks, Positions(KeysOf(input), key))|
  }

  /**
   * What a binding budget promises: `limit` different places, from every group an initial stretch in
   * order, and no group falls behind another by more than one unless it is used up.
   */
  ghost predicate FairShare(input: seq<Payload>, picks: seq<nat>, limit: nat) {
    && |picks| == limit && Distinct(picks) && (forall x :: x in picks ==> x < |input|)
    && (forall k :: k in FirstSeen(KeysOf(input)) ==>
        Within(picks, Positions(KeysOf(input), k)) <= Positions(KeysOf(input), k))
    && (forall k, l :: k in FirstSeen(KeysOf(input)) && l in FirstSeen(KeysOf(input)) ==>
          Taken(input, picks, k) == |Positions(KeysOf(input), k)|
              || Taken(input, picks, l) <= Taken(input, picks, k) + 1)
  }

  lemma PicksAreFair(input: seq<Payload>, round: nat, g: nat)
    requires g <= |Groups(KeysOf(input))|
    ensures FairShare(input, Picked(Groups(KeysOf(input)), round, g), |Picked(Groups(KeysOf(input)), round, g)|)
  {
    var groups, picks := Groups(KeysOf(input)), Picked(Groups(KeysOf(input)), round, g);
    GroupsArePartition(KeysOf(input));
    PicksAreDistinct(groups, |input|, round, g);
    forall k | k in FirstSeen(KeysOf(input))
      ensures exists j ::
                0 <= j < |groups| && groups[j] == Positions(KeysOf(input), k)
                && Within(picks, groups[j]) == groups[j][..Share(groups, round, g, j)]
    {
      var j :| 0 <= j < |FirstSeen(KeysOf(input))| && FirstSeen(KeysOf(input))[j] == k;
      SharesAreTaken(groups, |input|, round, g, j);
    }
  }

  /** At most `limit` payloads, shared fairly; a budget that does not bind changes nothing. */
  // ---------------------------------------------------------------------------------------------
  // The promise in terms of the payloads
  // ---------------------------------------------------------------------------------------------

  predicate OpensWith(p: Payload, quote: char) {
    p.value != [] && p.value[0] == quote
  }

  /** Two payloads share a queue: same context, and in quoted contexts the same opening quote, or none. */
  predicate Alike(p: Payload, q: Payload) {
    && p.context == q.context
    && (p.context == JsString || p.context == HtmlAttrValue ==>
          (OpensWith(p, '\'') <==> OpensWith(q, '\'')) && (OpensWith(p, '"') <==> OpensWith(q, '"')))
  }

  lemma KeysAgreeExactlyWhen(p: Payload, q: Payload)
    ensures KeyOf(p) == KeyOf(q) <==> Alike(p, q)
  {
  }

  /** The places picked whose payloads share the queue of payload `i`. */
  function PickedLike(input: seq<Payload>, picks: seq<nat>, i: nat): set<nat>
    requires i < |input| && forall x :: x in picks ==> x < |input|
  {
    set x | x in picks && Alike(input[x], input[i])
  }

  /**
   * A payload is picked only if all earlier ones of its queue are; and as long as a queue has payloads
   * left, no other queue is ahead of it by more than one.
   */
  ghost predicate SharedFairly(input: seq<Payload>, picks: seq<nat>) {
    && (forall x :: x in picks ==> x < |input|)
    && (forall i, j :: 0 <= i < j < |input| && j in picks && Alike(input[i], input[j]) ==> i in picks)
    && (forall i, j :: 0 <= i < |input| && 0 <= j < |input| && i !in picks ==>
          |PickedLike(input, picks, j)| <= |PickedLike(input, picks, i)| + 1)
  }

  lemma {:induction false} WithinIsPicked(picks: seq<nat>, group: seq<nat>)
    requires Distinct(picks)
    ensures Distinct(Within(picks, group)) && forall x :: x in Within(picks, group) <==> x in picks && x in group
  {
    if picks != [] {
      var init, last := picks[..|picks| - 1], picks[|picks| - 1];
      WithinIsPicked(init, group);
      assert picks == init + [last];
    }
  }

  /** The picks of one queue. */
  lemma PickedLikeIsTaken(input: seq<Payload>, picks: seq<nat>, i: nat)
    requires i < |input| && Distinct(picks) && forall x :: x in picks ==> x < |input|
    ensures |PickedLike(input, picks, i)| == |Within(picks, Positions(KeysOf(input), KeyOf(input[i])))|
    ensures forall x :: x in PickedLike(input, picks, i) <==>
            x in Within(picks, Positions(KeysOf(input), KeyOf(input[i])))
  {
    hide KeyOf; hide Alike;
    var group := Positions(KeysOf(input), KeyOf(input[i]));
    WithinIsPicked(picks, group);
    forall x ensures x in PickedLike(input, picks, i) <==> x in Within(picks, group) {
      if x in picks {
        KeysAgreeExactlyWhen(input[x], input[i]);
      }
    }
    DistinctCardinality(Within(picks, group));
    assert Elements(Within(picks, group)) == PickedLike(input, picks, i);
  }

  /** An initial stretch has everything before what it has. */
  lemma StretchIsClosed(part: seq<nat>, all: seq<nat>, x: nat, y: nat)
    requires part <= all && Ascending(all) && x in all && y in part && x < y
    ensures x in part
  {
    var m :| 0 <= m < |all| && all[m] == x;
    var n :| 0 <= n < |part| && part[n] == y;
    assert all[n] == y && m < n;
    assert part[m] == x;
  }

  lemma FairShareIsTold(input: seq<Payload>, picks: seq<nat>, limit: nat)
    requires FairShare(input, picks, limit)
    ensures SharedFairly(input, picks)
  {
    hide KeyOf; hide Alike; hide Within; hide Positions; hide FirstSeen; hide PickedLike;
    var keys := KeysOf(input);
    forall i, j | 0 <= i < j < |input| && j in picks && Alike(input[i], input[j]) ensures i in picks {
      KeysAgreeExactlyWhen(input[i], input[j]);
      QueueIsSeen(input, j);
      EarlierIsPicked(input, picks, i, j);
    }
    forall i, j | 0 <= i < |input| && 0 <= j < |input| && i !in picks
      ensures |PickedLike(input, picks, j)| <= |PickedLike(input, picks, i)| + 1
    {
      QueueIsSeen(input, i); QueueIsSeen(input, j);
      PickedLikeIsTaken(input, picks, i); PickedLikeIsTaken(input, picks, j);
      NotUsedUp(input, picks, i);
    }
  }

  lemma QueueIsSeen(input: seq<Payload>, i: nat)
    requires i < |input|
    ensures KeyOf(input[i]) in FirstSeen(KeysOf(input)) && i in Positions(KeysOf(input), KeyOf(input[i]))
  {
    assert KeysOf(input)[i] in KeysOf(input);
    SeenMeansPresent(KeysOf(input), KeyOf(input[i]));
  }

  lemma EarlierIsPicked(input: seq<Payload>, picks: seq<nat>, i: nat, j: nat)
    requires i < j < |input| && j in picks && KeyOf(input[i]) == KeyOf(input[j]) && Distinct(picks)
    requires var group := Positions(KeysOf(input), KeyOf(input[j])); Within(picks, group) <= group
    ensures i in picks
  {
    hide KeyOf; hide Within;
    var group := Positions(KeysOf(input), KeyOf(input[j]));
    QueueIsSeen(input, i); QueueIsSeen(input, j);
    WithinIsPicked(picks, group);
    StretchIsClosed(Within(picks, group), group, i, j);
  }

  lemma WholeStretch(part: seq<nat>, all: seq<nat>)
    requires part <= all && |part| == |all|
    ensures part == all
  {
  }

  lemma NotUsedUp(input: seq<Payload>, picks: seq<nat>, i: nat)
    requires i < |input| && i !in picks && Distinct(picks)
    requires var group := Positions(KeysOf(input), KeyOf(input[i])); Within(picks, group) <= group
    ensures |Within(picks, Positions(KeysOf(input), KeyOf(input[i])))| < |Positions(KeysOf(input), KeyOf(input[i]))|
  {
    hide KeyOf; hide Within;
    var group := Positions(KeysOf(input), KeyOf(input[i]));
    QueueIsSeen(input, i);
    WithinIsPicked(picks, group);
    if |Within(picks, group)| == |group| {
      WholeStretch(Within(picks, group), group);
      assert false;
    }
  }

  method LimitPayloads(input: seq<Payload>, limit: int) returns (selected: seq<Payload>, ghost picks: seq<nat>)
    ensures limit <= 0 || |input| <= limit ==> selected == input
    ensures 0 < limit < |input| ==> FairShare(input, picks, limit) && selected == Selection(input, picks)
    ensures 0 < limit < |input| ==> SharedFairly(input, picks)
    ensures 0 < limit < |input| ==>
            exists round: nat, g: nat :: g <= |Groups(KeysOf(input))|
                && picks == Picked(Groups(KeysOf(input)), round, g)
  {
    picks := [];
    if limit <= 0 || |input| <= limit {
      return input, picks;
    }
    var groups := Group(KeysOf(input));
    GroupsArePartition(KeysOf(input));
    selected := [];
    var round := 0;
    while |selected| < limit
      invariant Chosen(input, groups, picks, selected, round, 0) && |selected| <= limit
      decreases |input| - round
    {
      if round >= |input| {
        EverythingIsPicked(groups, |input|);
        MoreRoundsPickMore(groups, |input|, round);
        assert false;
      }
      var g := 0;
      while g < |groups|
        invariant 0 <= g <= |groups| && Chosen(input, groups, picks, selected, round, g) && |selected| < limit
      {
        ChosenNext(input, groups, picks, selected, round, g);
        if round < |groups[g]| {
          picks := picks + [groups[g][round]];
          selected := selected + [input[groups[g][round]]];
          if |selected| == limit {
            PicksAreFair(input, round, g + 1);
            FairShareIsTold(input, picks, limit);
            return;
          }
        }
        g := g + 1;
      }
      round := round + 1;
    }
    PicksAreFair(input, round, 0);
    FairShareIsTold(input, picks, limit);
  }

  /** The selection after `round` full rounds and `g` groups of the next. */
  ghost predicate Chosen(input: seq<Payload>, groups: seq<seq<nat>>, picks: seq<nat>, selected: seq<Payload>,
                         round: nat, g: nat) {
    && g <= |groups| && picks == Picked(groups, round, g)
    && (forall x :: x in picks ==> x < |input|) && selected == Selection(input, picks)
  }

  lemma ChosenNext(input: seq<Payload>, groups: seq<seq<nat>>, picks: seq<nat>, selected: seq<Payload>, round: nat,
                   g: nat)
    requires Partition(groups, |input|) && g < |groups| && Chosen(input, groups, picks, selected, round, g)
    ensures round < |groups[g]| ==>
              && groups[g][round] < |input|
              && Chosen(input, groups, picks + [groups[g][round]], selected + [input[groups[g][round]]], round, g + 1)
    ensures round >= |groups[g]| ==> Chosen(input, groups, picks, selected, round, g + 1)
  {
    if round < |groups[g]| {
      var x := groups[g][round];
      assert Selection(input, picks + [x]) == Selection(input, picks) + [input[x]];
    }
  }
}
