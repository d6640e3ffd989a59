/** One report line per vulnerable place (AggregateFindings in pkg/scanner/dedup.go). */
module Aggregation {
  import opened Findings
  import opened Grouping
  import opened Prelude

  datatype AggKey = AggKey(baseUrl: string, param: string, contextClass: string, kind: string, paramType: string)

  function KeyOf(lib: Library, f: Finding): AggKey {
    AggKey(lib.normalize(f.url), f.parameter, lib.contextClass(f.contexts), f.kind, f.paramType)
  }

  function KeysOf(lib: Library, findings: seq<Finding>): seq<AggKey> {
    seq(|findings|, i requires 0 <= i < |findings| => KeyOf(lib, findings[i]))
  }

  /** Two findings share a report line. */
  predicate Alike(lib: Library, a: Finding, b: Finding) {
    && lib.normalize(a.url) == lib.normalize(b.url) && a.parameter == b.parameter && a.paramType == b.paramType
    && lib.contextClass(a.contexts) == lib.contextClass(b.contexts) && a.kind == b.kind
  }

  lemma KeysAgreeExactlyWhen(lib: Library, a: Finding, b: Finding)
    ensures KeyOf(lib, a) == KeyOf(lib, b) <==> Alike(lib, a, b)
  {
  }

  // ---------------------------------------------------------------------------------------------
  // What a line says about its group
  // ---------------------------------------------------------------------------------------------

  function Mentioned(f: Finding): seq<string> {
    [f.payload] + f.payloads
  }

  /** Every payload of a group, in order and with repetitions. */
  function AllMentioned(findings: seq<Finding>, group: seq<nat>): seq<string>
    requires forall m :: 0 <= m < |group| ==> group[m] < |findings|
  {
    if group == [] then []
    else AllMentioned(findings, group[..|group| - 1]) + Mentioned(findings[group[|group| - 1]])
  }

  /** The worst severity of a group; a group of unrated findings has none. */
  ghost predicate Worst(findings: seq<Finding>, group: seq<nat>, severity: string)
    requires Places(findings, group)
  {
    && (forall m :: 0 <= m < |group| ==> Score(findings[group[m]].severity) <= Score(severity))
    && ((severity == "" && forall m :: 0 <= m < |group| ==> Score(findings[group[m]].severity) == 0)
        || (Score(severity) > 0 && exists m :: 0 <= m < |group| && findings[group[m]].severity == severity))
  }

  /** Some finding of the group has this severity. */
  ghost predicate Rated(findings: seq<Finding>, group: seq<nat>, severity: string)
    requires Places(findings, group)
  {
    exists m :: 0 <= m < |group| && findings[group[m]].severity == severity
  }

  /** A group with a critical member is critical, otherwise one with a high member is high, and so on. */
  ghost predicate WorstOf(findings: seq<Finding>, group: seq<nat>, severity: string)
    requires Places(findings, group)
  {
    if Rated(findings, group, "critical") then severity == "critical"
    else if Rated(findings, group, "high") then severity == "high"
    else if Rated(findings, group, "medium") then severity == "medium"
    else if Rated(findings, group, "low") then severity == "low"
    else if Rated(findings, group, "info") then severity == "info"
    else severity == ""
  }

  lemma WorstIsTold(findings: seq<Finding>, group: seq<nat>, severity: string)
    requires Places(findings, group) && Worst(findings, group, severity)
    ensures WorstOf(findings, group, severity)
  {
    assert Score(severity) > 0 ==> Rated(findings, group, severity);
  }

  /** The earliest of the findings proven with the greatest confidence, if any is proven. */
  ghost predicate Proven(findings: seq<Finding>, group: seq<nat>, proven: Option<nat>)
    requires Places(findings, group)
  {
    match proven
    case None => forall m :: 0 <= m < |group| ==> !findings[group[m]].verified
    case Some(i) =>
      && i in group && i < |findings| && findings[i].verified
      && forall m :: 0 <= m < |group| && findings[group[m]].verified ==>
           if group[m] < i then findings[group[m]].executionConfidence < findings[i].executionConfidence
           else findings[group[m]].executionConfidence <= findings[i].executionConfidence
  }

  /**
   * A line stands for its group: every payload of the group once, the worst severity, and the proven
   * finding with its own evidence and payload in front, or else the best finding.
   */
  ghost predicate Summarizes(findings: seq<Finding>, group: seq<nat>, out: Finding)
    requires Places(findings, group)
  {
    && Distinct(out.payloads) && Elements(out.payloads) == Elements(AllMentioned(findings, group))
    && Worst(findings, group, out.severity)
    && (out.verified <==> exists m :: 0 <= m < |group| && findings[group[m]].verified)
    && exists i :: 0 <= i < |findings| && ComesFrom(findings, group, out, i)
  }

  ghost predicate ComesFrom(findings: seq<Finding>, group: seq<nat>, out: Finding, i: nat)
    requires Places(findings, group) && i < |findings|
  {
    if out.verified then
      && Proven(findings, group, Some(i))
      && out == findings[i].(severity := out.severity, payloads := out.payloads,
                             evidence := findings[i].evidence.(verificationError := ""))
      && out.payloads != [] && out.payloads[0] == findings[i].payload
    else
      && IsBest(findings, group, i)
      && out == findings[i].(severity := out.severity, payloads := out.payloads)
      && out.payloads == FirstSeen(AllMentioned(findings, group))
  }

  // ---------------------------------------------------------------------------------------------
  // Entries
  // ---------------------------------------------------------------------------------------------

  datatype Entry = Entry(primary: nat, payloads: set<string>, order: seq<string>, maxSev: string, proven: Option<nat>)

  ghost predicate EntryFor(findings: seq<Finding>, group: seq<nat>, e: Entry) {
    && Places(findings, group) && group != []
    && IsBest(findings, group, e.primary)
    && e.order == FirstSeen(AllMentioned(findings, group)) && e.payloads == Elements(e.order)
    && Worst(findings, group, e.maxSev)
    && Proven(findings, group, e.proven)
  }

  /** Adds payloads that were not seen yet. */
  method AddPayloads(payloads: set<string>, order: seq<string>, values: seq<string>, ghost before: seq<string>)
    returns (payloads': set<string>, order': seq<string>)
    requires order == FirstSeen(before) && payloads == Elements(order)
    ensures order' == FirstSeen(before + values) && payloads' == Elements(order')
  {
    hide FirstSeen;
    payloads', order' := payloads, order;
    var i := 0;
    assert before + values[..0] == before;
    while i < |values|
      invariant 0 <= i <= |values| && order' == FirstSeen(before + values[..i]) && payloads' == Elements(order')
    {
      FirstSeenOfAppend(before + values[..i], values[i]);
      SeenMeansPresent(before + values[..i], values[i]);
      assert before + values[..i + 1] == before + values[..i] + [values[i]];
      if values[i] !in payloads' {
        payloads' := payloads' + {values[i]};
        order' := order' + [values[i]];
      }
      i := i + 1;
    }
    assert before + values[..|values|] == before + values;
  }

  /** Takes one more finding into its group's entry. */
  method Absorb(findings: seq<Finding>, ghost group: seq<nat>, e: Entry, n: nat) returns (e': Entry)
    requires EntryFor(findings, group, e) && n < |findings| && forall m :: 0 <= m < |group| ==> group[m] < n
    ensures EntryFor(findings, group + [n], e')
  {
    hide Better; hide Worst; hide Proven; hide IsBest; hide FirstSeen;
    var f := findings[n];
    e' := e;
    var payloads, order := AddPayloads(e.payloads, e.order, [f.payload], AllMentioned(findings, group));
    payloads, order := AddPayloads(payloads, order, f.payloads, AllMentioned(findings, group) + [f.payload]);
    e' := e'.(payloads := payloads, order := order);
    MentionedNext(findings, group, n);
    BestNext(findings, group, e.primary, n);
    BestIsPlace(findings, group, e.primary);
    if Better(findings[e.primary], f) {
      e' := e'.(primary := n);
    }
    WorstNext(findings, group, e.maxSev, n);
    if Score(f.severity) > Score(e.maxSev) {
      e' := e'.(maxSev := f.severity);
    }
    ProvenNext(findings, group, e.proven, n);
    if f.verified && (e.proven.None? || f.executionConfidence > findings[e.proven.value].executionConfidence) {
      e' := e'.(proven := Some(n));
    }
  }

  lemma BestIsPlace(findings: seq<Finding>, group: seq<nat>, i: nat)
    requires Places(findings, group) && IsBest(findings, group, i)
    ensures i < |findings|
  {
  }

  lemma MentionedNext(findings: seq<Finding>, group: seq<nat>, n: nat)
    requires Places(findings, group) && n < |findings|
    ensures forall m :: 0 <= m < |group + [n]| ==> (group + [n])[m] < |findings|
    ensures AllMentioned(findings, group + [n])
            == AllMentioned(findings, group) + [findings[n].payload] + findings[n].payloads
  {
    assert (group + [n])[..|group|] == group;
  }

  lemma WorstNext(findings: seq<Finding>, group: seq<nat>, severity: string, n: nat)
    requires Places(findings, group) && Places(findings, group + [n]) && Worst(findings, group, severity)
             && n < |findings|
    ensures Worst(findings, group + [n], if Score(findings[n].severity) > Score(severity) then findings[n].severity
                  else severity)
  {
    var zero := Score("");
    assert zero == 0;
    hide Score;
    var all := group + [n];
    assert all[|group|] == n;
    assert forall m :: 0 <= m < |group| ==> all[m] == group[m];
    if exists m :: 0 <= m < |group| && findings[group[m]].severity == severity {
      var m :| 0 <= m < |group| && findings[group[m]].severity == severity;
      assert findings[all[m]].severity == severity;
    }
  }

  lemma ProvenNext(findings: seq<Finding>, group: seq<nat>, proven: Option<nat>, n: nat)
    requires Places(findings, group) && Places(findings, group + [n]) && Proven(findings, group, proven)
             && n < |findings|
    requires forall m :: 0 <= m < |group| ==> group[m] < n
    ensures proven.Some? ==> proven.value < |findings|
    ensures var better := findings[n].verified
                          && (proven.None?
                              || findings[n].executionConfidence > findings[proven.value].executionConfidence);
            Proven(findings, group + [n], if better then Some(n) else proven)
  {
    var all := group + [n];
    assert all[|group|] == n;
    if proven.Some? {
      var m :| 0 <= m < |group| && group[m] == proven.value;
      assert all[m] == proven.value;
    }
  }

  /** The entry of a group's first finding. */
  method NewEntry(findings: seq<Finding>, n: nat) returns (e: Entry)
    requires n < |findings|
    ensures EntryFor(findings, [n], e)
  {
    hide FirstSeen;
    var f := findings[n];
    BestOfOne(findings, n);
    NoneSeen();
    var payloads, order := AddPayloads({}, [], [f.payload], []);
    payloads, order := AddPayloads(payloads, order, f.payloads, [] + [f.payload]);
    MentionedNext(findings, [], n);
    assert [] + [n] == [n];
    e := Entry(n, payloads, order, if Score(f.severity) > Score("") then f.severity else "",
               if f.verified then Some(n) else None);
  }

  lemma NoneSeen()
    ensures FirstSeen<string>([]) == []
  {
  }

  // ---------------------------------------------------------------------------------------------
  // Lines
  // ---------------------------------------------------------------------------------------------

  /** The payloads with the proven one in front. */
  method LeadWith(payload: string, order: seq<string>) returns (reordered: seq<string>)
    requires Distinct(order)
    ensures Distinct(reordered) && Elements(reordered) == Elements(order) + {payload} && reordered != []
            && reordered[0] == payload
  {
    reordered := [payload];
    var i := 0;
    while i < |order|
      invariant 0 <= i <= |order| && reordered != [] && reordered[0] == payload && Distinct(reordered)
      invariant forall x :: x in reordered <==> x == payload || x in order[..i]
    {
      assert order[..i + 1] == order[..i] + [order[i]];
      if order[i] != payload {
        PushDistinct(reordered, order[i]);
        reordered := reordered + [order[i]];
      }
      i := i + 1;
    }
    assert order[..|order|] == order;
  }

  /** The line of one group. */
  method Line(findings: seq<Finding>, ghost group: seq<nat>, e: Entry) returns (out: Finding)
    requires EntryFor(findings, group, e)
    ensures Places(findings, group) && Summarizes(findings, group, out)
  {
    hide FirstSeen; hide IsBest; hide Worst; hide AllMentioned;
    EntryIsPlaced(findings, group, e);
    if e.proven.Some? {
      var f := findings[e.proven.value];
      var payloads := LeadWith(f.payload, e.order);
      out := f.(severity := e.maxSev, payloads := payloads, verified := true,
                executionConfidence := f.executionConfidence,
                evidence := f.evidence.(verificationError := ""));
      assert ComesFrom(findings, group, out, e.proven.value);
    } else {
      out := findings[e.primary].(severity := e.maxSev, payloads := e.order);
      assert ComesFrom(findings, group, out, e.primary);
    }
  }

  lemma EntryIsPlaced(findings: seq<Finding>, group: seq<nat>, e: Entry)
    requires EntryFor(findings, group, e)
    ensures e.primary < |findings| && !(e.proven.None? && findings[e.primary].verified)
    ensures Distinct(e.order) && Elements(e.order) == Elements(AllMentioned(findings, group))
    ensures e.proven.Some? ==> e.proven.value < |findings| && findings[e.proven.value].payload in e.order
    ensures e.proven.Some? <==> exists m :: 0 <= m < |group| && findings[group[m]].verified
  {
    var k :| 0 <= k < |group| && group[k] == e.primary;
    if e.proven.Some? {
      var m :| 0 <= m < |group| && group[m] == e.proven.value;
      MemberIsMentioned(findings, group, m);
      SeenMeansPresent(AllMentioned(findings, group), findings[group[m]].payload);
    }
  }

  lemma {:induction false} MemberIsMentioned(findings: seq<Finding>, group: seq<nat>, m: nat)
    requires Places(findings, group) && m < |group|
    ensures findings[group[m]].payload in AllMentioned(findings, group)
  {
    var init := group[..|group| - 1];
    if m < |init| {
      MemberIsMentioned(findings, init, m);
    } else {
      assert Mentioned(findings[group[m]])[0] == findings[group[m]].payload;
    }
  }

  // ---------------------------------------------------------------------------------------------
  // All groups
  // ---------------------------------------------------------------------------------------------

  /** One line for every key, in first-seen order, that stands for the findings with this key. */
  ghost predicate Aggregated(lib: Library, findings: seq<Finding>, lines: seq<Finding>) {
    var keys := KeysOf(lib, findings);
    && |lines| == |FirstSeen(keys)|
    && forall m :: 0 <= m < |lines| ==> LineFor(lib, findings, FirstSeen(keys)[m], lines[m])
  }

  ghost predicate LineFor(lib: Library, findings: seq<Finding>, k: AggKey, out: Finding) {
    var group := Positions(KeysOf(lib, findings), k);
    Places(findings, group) && Summarizes(findings, group, out)
  }

  // ---------------------------------------------------------------------------------------------
  // What a line tells, in terms of the findings
  // ---------------------------------------------------------------------------------------------

  /** Some finding that shares the line has this severity. */
  ghost predicate RatedAmong(lib: Library, findings: seq<Finding>, line: Finding, severity: string) {
    exists f :: f in findings && Alike(lib, f, line) && f.severity == severity
  }

  /**
   * The line has exactly the payloads of the findings that share it, is verified exactly if one of them
   * is, and has the worst of their severities.
   */
  ghost predicate Tells(lib: Library, findings: seq<Finding>, line: Finding) {
    && (forall p :: p in line.payloads <==>
          exists f :: f in findings && Alike(lib, f, line) && (p == f.payload || p in f.payloads))
    && (line.verified <==> exists f :: f in findings && Alike(lib, f, line) && f.verified)
    && line.severity ==
         if RatedAmong(lib, findings, line, "critical") then "critical"
         else if RatedAmong(lib, findings, line, "high") then "high"
         else if RatedAmong(lib, findings, line, "medium") then "medium"
         else if RatedAmong(lib, findings, line, "low") then "low"
         else if RatedAmong(lib, findings, line, "info") then "info"
         else ""
  }

  lemma {:induction false} WhatIsMentioned(findings: seq<Finding>, group: seq<nat>, p: string)
    requires Places(findings, group)
    ensures p in AllMentioned(findings, group) <==>
              exists m :: 0 <= m < |group| && (p == findings[group[m]].payload || p in findings[group[m]].payloads)
  {
    if group != [] {
      var init, n := group[..|group| - 1], |group| - 1;
      WhatIsMentioned(findings, init, p);
      assert forall m :: 0 <= m < n ==> group[m] == init[m];
    }
  }

  /** The findings that share a line are those of its group. */
  lemma SharesMeansGroup(lib: Library, findings: seq<Finding>, k: AggKey, line: Finding)
    requires KeyOf(lib, line) == k
    ensures var group := Positions(KeysOf(lib, findings), k);
            && Places(findings, group)
            && (forall m :: 0 <= m < |group| ==> findings[group[m]] in findings && Alike(lib, findings[group[m]], line))
            && (forall f :: f in findings && Alike(lib, f, line) ==>
                exists m :: 0 <= m < |group| && findings[group[m]] == f)
  {
    hide KeyOf; hide Alike;
    var keys := KeysOf(lib, findings);
    var group := Positions(keys, k);
    forall m | 0 <= m < |group| ensures group[m] < |findings| && Alike(lib, findings[group[m]], line) {
      assert group[m] in group;
      KeysAgreeExactlyWhen(lib, findings[group[m]], line);
    }
    forall f | f in findings && Alike(lib, f, line) ensures exists m :: 0 <= m < |group| && findings[group[m]] == f {
      var i :| 0 <= i < |findings| && findings[i] == f;
      KeysAgreeExactlyWhen(lib, f, line);
      assert i in group;
      var m :| 0 <= m < |group| && group[m] == i;
    }
  }

  lemma LineTells(lib: Library, findings: seq<Finding>, k: AggKey, line: Finding)
    requires LineFor(lib, findings, k, line)
    ensures KeyOf(lib, line) == k && Tells(lib, findings, line)
  {
    hide FirstSeen; hide Alike; hide Worst; hide IsBest; hide Proven; hide AllMentioned; hide Positions;
    var group := Positions(KeysOf(lib, findings), k);
    LineHasKey(lib, findings, k, line);
    SharesMeansGroup(lib, findings, k, line);
    forall p ensures p in line.payloads <==>
                       exists f :: f in findings && Alike(lib, f, line) && (p == f.payload || p in f.payloads)
    {
      WhatIsMentioned(findings, group, p);
      assert p in line.payloads <==> p in Elements(line.payloads);
    }
    WorstIsTold(findings, group, line.severity);
    RatingsAgree(lib, findings, group, line);
  }

  lemma RatingsAgree(lib: Library, findings: seq<Finding>, group: seq<nat>, line: Finding)
    requires Places(findings, group)
    requires forall m :: 0 <= m < |group| ==> findings[group[m]] in findings && Alike(lib, findings[group[m]], line)
    requires forall f :: f in findings && Alike(lib, f, line) ==>
             exists m :: 0 <= m < |group| && findings[group[m]] == f
    ensures forall severity :: Rated(findings, group, severity) <==> RatedAmong(lib, findings, line, severity)
  {
    hide Alike;
  }

  lemma LineHasKey(lib: Library, findings: seq<Finding>, k: AggKey, line: Finding)
    requires LineFor(lib, findings, k, line)
    ensures KeyOf(lib, line) == k
  {
    hide FirstSeen; hide Worst; hide AllMentioned;
    var group := Positions(KeysOf(lib, findings), k);
    var i :| 0 <= i < |findings| && ComesFrom(findings, group, line, i);
    assert i in group;
    assert KeyOf(lib, line) == KeyOf(lib, findings[i]);
  }

  /** No two lines share a key, every finding has a line, and every line tells of its findings. */
  lemma LinesTell(lib: Library, findings: seq<Finding>, lines: seq<Finding>)
    requires Aggregated(lib, findings, lines)
    ensures forall m, n :: 0 <= m < n < |lines| ==> !Alike(lib, lines[m], lines[n])
    ensures forall f :: f in findings ==> exists line :: line in lines && Alike(lib, f, line)
    ensures forall line :: line in lines ==> Tells(lib, findings, line)
  {
    hide KeyOf; hide Alike; hide FirstSeen; hide LineFor; hide Tells;
    var keys := KeysOf(lib, findings);
    forall m | 0 <= m < |lines| ensures KeyOf(lib, lines[m]) == FirstSeen(keys)[m] && Tells(lib, findings, lines[m]) {
      LineTells(lib, findings, FirstSeen(keys)[m], lines[m]);
    }
    forall m, n | 0 <= m < n < |lines| ensures !Alike(lib, lines[m], lines[n]) {
      KeysAgreeExactlyWhen(lib, lines[m], lines[n]);
    }
    forall f | f in findings ensures exists line :: line in lines && Alike(lib, f, line) {
      var i :| 0 <= i < |findings| && findings[i] == f;
      assert keys[i] in keys;
      SeenMeansPresent(keys, keys[i]);
      var m :| 0 <= m < |FirstSeen(keys)| && FirstSeen(keys)[m] == keys[i];
      KeysAgreeExactlyWhen(lib, f, lines[m]);
      assert lines[m] in lines;
    }
  }

  // ---------------------------------------------------------------------------------------------
  // The loops
  // ---------------------------------------------------------------------------------------------

  ghost predicate EntrySoFar(lib: Library, findings: seq<Finding>, n: nat, k: AggKey, e: Entry)
    requires n <= |findings|
  {
    EntryFor(findings, Positions(KeysOf(lib, findings)[..n], k), e)
  }

  ghost predicate EntriesSoFar(lib: Library, findings: seq<Finding>, n: nat, groups: map<AggKey, Entry>,
                               keys: seq<AggKey>)
    requires n <= |findings|
  {
    && keys == FirstSeen(KeysOf(lib, findings)[..n]) && groups.Keys == Elements(keys)
    && forall k :: k in groups ==> EntrySoFar(lib, findings, n, k, groups[k])
  }

  /** What one more finding changes: its own group only. */
  lemma EntriesNext(lib: Library, findings: seq<Finding>, n: nat, groups: map<AggKey, Entry>, keys: seq<AggKey>,
                    e: Entry)
    requires n < |findings| && EntriesSoFar(lib, findings, n, groups, keys)
    requires EntryFor(findings, Positions(KeysOf(lib, findings)[..n], KeyOf(lib, findings[n])) + [n], e)
    ensures var k := KeyOf(lib, findings[n]);
            EntriesSoFar(lib, findings, n + 1, groups[k := e], if k in groups then keys else keys + [k])
  {
    hide FirstSeen; hide EntryFor; hide EntrySoFar;
    var all, key := KeysOf(lib, findings), KeyOf(lib, findings[n]);
    TakeNext(KeysOf(lib, findings), n);
    SeenMeansPresent(all[..n], key);
    FirstSeenOfAppend(all[..n], key);
    OwnEntry(lib, findings, n, e);
    forall k | k in groups && k != key ensures EntrySoFar(lib, findings, n + 1, k, groups[k]) {
      OtherEntry(lib, findings, n, k, groups[k]);
    }
  }

  lemma OwnEntry(lib: Library, findings: seq<Finding>, n: nat, e: Entry)
    requires n < |findings|
    requires EntryFor(findings, Positions(KeysOf(lib, findings)[..n], KeyOf(lib, findings[n])) + [n], e)
    ensures EntrySoFar(lib, findings, n + 1, KeyOf(lib, findings[n]), e)
  {
    hide EntryFor; hide Positions;
    TakeNext(KeysOf(lib, findings), n);
    PositionsOfAppend(KeysOf(lib, findings)[..n], KeyOf(lib, findings[n]), KeyOf(lib, findings[n]));
  }

  lemma OtherEntry(lib: Library, findings: seq<Finding>, n: nat, k: AggKey, e: Entry)
    requires n < |findings| && k != KeyOf(lib, findings[n]) && EntrySoFar(lib, findings, n, k, e)
    ensures EntrySoFar(lib, findings, n + 1, k, e)
  {
    hide EntryFor; hide Positions;
    TakeNext(KeysOf(lib, findings), n);
    PositionsOfAppend(KeysOf(lib, findings)[..n], KeyOf(lib, findings[n]), k);
  }

  lemma NothingYet(lib: Library, findings: seq<Finding>)
    ensures EntriesSoFar(lib, findings, 0, map[], [])
  {
    assert KeysOf(lib, findings)[..0] == [];
  }

  lemma GroupSoFar(lib: Library, findings: seq<Finding>, n: nat, groups: map<AggKey, Entry>, keys: seq<AggKey>)
    requires n < |findings| && EntriesSoFar(lib, findings, n, groups, keys)
    ensures var k, group := KeyOf(lib, findings[n]), Positions(KeysOf(lib, findings)[..n], KeyOf(lib, findings[n]));
            && (k in groups ==> EntryFor(findings, group, groups[k]))
            && (k !in groups ==> group == [])
            && forall m :: 0 <= m < |group| ==> group[m] < n
  {
    hide FirstSeen; hide EntryFor;
    var all, k := KeysOf(lib, findings), KeyOf(lib, findings[n]);
    var group := Positions(all[..n], k);
    assert k in groups ==> EntrySoFar(lib, findings, n, k, groups[k]);
    if k !in groups {
      SeenMeansPresent(all[..n], k);
      NoPositions(all[..n], k);
    }
    forall m | 0 <= m < |group| ensures group[m] < n {
      assert group[m] in group;
    }
  }

  /** Collapses findings into one line for every key. */
  method AggregateFindings(lib: Library, findings: seq<Finding>) returns (result: seq<Finding>)
    ensures Aggregated(lib, findings, result)
    ensures forall m, n :: 0 <= m < n < |result| ==> !Alike(lib, result[m], result[n])
    ensures forall f :: f in findings ==> exists line :: line in result && Alike(lib, f, line)
    ensures forall line :: line in result ==> Tells(lib, findings, line)
  {
    hide EntriesSoFar; hide EntryFor; hide Tells;
    var groups: map<AggKey, Entry> := map[];
    var keys: seq<AggKey> := [];
    var i := 0;
    NothingYet(lib, findings);
    while i < |findings|
      invariant 0 <= i <= |findings| && EntriesSoFar(lib, findings, i, groups, keys)
    {
      var key := KeyOf(lib, findings[i]);
      GroupSoFar(lib, findings, i, groups, keys);
      ghost var group := Positions(KeysOf(lib, findings)[..i], key);
      var e;
      if key in groups {
        e := Absorb(findings, group, groups[key], i);
        EntriesNext(lib, findings, i, groups, keys, e);
      } else {
        e := NewEntry(findings, i);
        assert group + [i] == [i];
        EntriesNext(lib, findings, i, groups, keys, e);
        keys := keys + [key];
      }
      groups := groups[key := e];
      i := i + 1;
    }
    result := Lines(lib, findings, groups, keys);
    LinesTell(lib, findings, result);
  }

  method Lines(lib: Library, findings: seq<Finding>, groups: map<AggKey, Entry>, keys: seq<AggKey>)
    returns (result: seq<Finding>)
    requires EntriesSoFar(lib, findings, |findings|, groups, keys)
    ensures Aggregated(lib, findings, result)
  {
    hide FirstSeen; hide EntryFor; hide Summarizes;
    assert KeysOf(lib, findings)[..|findings|] == KeysOf(lib, findings);
    result := [];
    var j := 0;
    while j < |keys|
      invariant 0 <= j <= |keys| && |result| == j
      invariant forall m :: 0 <= m < j ==> LineFor(lib, findings, keys[m], result[m])
    {
      assert keys[j] in Elements(keys);
      assert EntrySoFar(lib, findings, |findings|, keys[j], groups[keys[j]]);
      var out := Line(findings, Positions(KeysOf(lib, findings), keys[j]), groups[keys[j]]);
      assert LineFor(lib, findings, keys[j], out);
      result := result + [out];
      j := j + 1;
    }
  }
}
