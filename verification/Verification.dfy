/** Grouping and execution verification of candidates (pkg/scanner/verification.go, pkg/scanner/engine.go). */
module Verification {
  import opened Findings
  import opened Grouping
  import opened Prelude

  // ---------------------------------------------------------------------------------------------
  // Grouping
  // ---------------------------------------------------------------------------------------------

  datatype Key = Key(url: string, parameter: string, context: string, kind: string, paramType: string)

  function KeyOf(lib: Library, f: Finding): Key {
    if f.reflectionPath != "" then Key(f.reflectionPath, f.parameter, "", f.kind, "")
    else Key(lib.normalize(f.url), f.parameter, lib.contextClass(f.contexts), f.kind, f.paramType)
  }

  function KeysOf(lib: Library, findings: seq<Finding>): seq<Key> {
    seq(|findings|, i requires 0 <= i < |findings| => KeyOf(lib, findings[i]))
  }

  /**
   * Two candidates are verified together: with the same reflection path, or both without one and with
   * the same URL, context class and parameter type; always with the same parameter and kind.
   */
  predicate Alike(lib: Library, a: Finding, b: Finding) {
    && a.parameter == b.parameter && a.kind == b.kind
    && if a.reflectionPath != "" && b.reflectionPath != "" then a.reflectionPath == b.reflectionPath
       else if a.reflectionPath == "" && b.reflectionPath == ""
       then lib.normalize(a.url) == lib.normalize(b.url) && a.paramType == b.paramType
            && lib.contextClass(a.contexts) == lib.contextClass(b.contexts)
       else if a.reflectionPath != ""   // a URL may look like a path
       then a.reflectionPath == lib.normalize(b.url) && lib.contextClass(b.contexts) == "" && b.paramType == ""
       else b.reflectionPath == lib.normalize(a.url) && lib.contextClass(a.contexts) == "" && a.paramType == ""
  }

  lemma KeysAgreeExactlyWhen(lib: Library, a: Finding, b: Finding)
    ensures KeyOf(lib, a) == KeyOf(lib, b) <==> Alike(lib, a, b)
  {
  }

  /**
   * `a` at place `i` of the list comes before `b` at place `j`: supported payloads first, then shorter
   * ones, then proven findings, then greater confidence, and else the order of the list.
   */
  ghost predicate Ranked(lib: Library, a: Finding, i: nat, b: Finding, j: nat) {
    var support, length := lib.supported(a.payload) == lib.supported(b.payload), |a.payload| == |b.payload|;
    && (lib.supported(b.payload) ==> lib.supported(a.payload))
    && (support ==> |a.payload| <= |b.payload|)
    && (support && length ==> (b.verified ==> a.verified))
    && (support && length && a.verified == b.verified ==> a.confidence >= b.confidence)
    && (support && length && a.verified == b.verified && a.confidence == b.confidence ==> i < j)
  }

  lemma InOrderIsRanked(lib: Library, findings: seq<Finding>, i: nat, j: nat)
    requires i < |findings| && j < |findings| && InOrder(lib, findings, i, j)
    ensures Ranked(lib, findings[i], i, findings[j], j)
  {
  }

  /** Candidates that can be verified come first, then shorter payloads, then better findings. */
  predicate Before(lib: Library, a: Finding, b: Finding) {
    if lib.supported(a.payload) != lib.supported(b.payload) then lib.supported(a.payload)
    else if |a.payload| != |b.payload| then |a.payload| < |b.payload|
    else Better(b, a)
  }

  lemma BeforeIsAWeakOrder(lib: Library, a: Finding, b: Finding, c: Finding)
    ensures !Before(lib, a, a)
    ensures Before(lib, a, b) && Before(lib, b, c) ==> Before(lib, a, c)
    ensures !Before(lib, a, b) && !Before(lib, b, c) ==> !Before(lib, a, c)
    ensures !(Before(lib, a, b) && Before(lib, b, a))
  {
  }

  /** In order, and findings that are not ordered stay in the order of the list. */
  ghost predicate StablySorted(lib: Library, findings: seq<Finding>, places: seq<nat>)
    requires forall m :: 0 <= m < |places| ==> places[m] < |findings|
  {
    forall m, n :: 0 <= m < n < |places| ==> InOrder(lib, findings, places[m], places[n])
  }

  ghost predicate InOrder(lib: Library, findings: seq<Finding>, i: nat, j: nat)
    requires i < |findings| && j < |findings|
  {
    || Before(lib, findings[i], findings[j])
    || (!Before(lib, findings[j], findings[i]) && i < j)
  }

  /** `sorted` has the places of `group`, stably sorted. */
  ghost predicate Arranged(lib: Library, findings: seq<Finding>, group: seq<nat>, sorted: seq<nat>) {
    && |sorted| == |group| && Distinct(sorted) && (forall x :: x in sorted <==> x in group)
    && (forall m :: 0 <= m < |sorted| ==> sorted[m] < |findings|)
    && StablySorted(lib, findings, sorted)
  }

  lemma InOrderIsTransitive(lib: Library, findings: seq<Finding>, i: nat, j: nat, k: nat)
    requires i < |findings| && j < |findings| && k < |findings|
    requires InOrder(lib, findings, i, j) && InOrder(lib, findings, j, k)
    ensures InOrder(lib, findings, i, k)
  {
    hide Before;
    var a, b, c := findings[i], findings[j], findings[k];
    BeforeIsAWeakOrder(lib, a, b, c);
    BeforeIsAWeakOrder(lib, c, b, a);
    BeforeIsAWeakOrder(lib, a, c, b);
    BeforeIsAWeakOrder(lib, b, a, c);
    BeforeIsAWeakOrder(lib, c, a, b);
    BeforeIsAWeakOrder(lib, b, c, a);
  }

  lemma InOrderIsAntisymmetric(lib: Library, findings: seq<Finding>, i: nat, j: nat)
    requires i < |findings| && j < |findings|
    ensures !(InOrder(lib, findings, i, j) && InOrder(lib, findings, j, i))
  {
    BeforeIsAWeakOrder(lib, findings[i], findings[j], findings[i]);
  }

  /** A group has only one stable arrangement. */
  lemma ArrangementIsUnique(lib: Library, findings: seq<Finding>, group: seq<nat>, a: seq<nat>, b: seq<nat>)
    requires Arranged(lib, findings, group, a) && Arranged(lib, findings, group, b)
    ensures a == b
  {
    hide InOrder;
    var m := 0;
    while m < |a|
      invariant 0 <= m <= |a| && forall q :: 0 <= q < m ==> a[q] == b[q]
    {
      assert a[m] in b && b[m] in a;
      var k :| 0 <= k < |b| && b[k] == a[m];
      var l :| 0 <= l < |a| && a[l] == b[m];
      assert k >= m && l >= m;
      InOrderIsAntisymmetric(lib, findings, a[m], b[m]);
      m := m + 1;
    }
  }

  /** Where a later finding belongs among sorted ones: after everything it is not before. */
  method Insert(lib: Library, findings: seq<Finding>, sorted: seq<nat>, x: nat) returns (r: seq<nat>)
    requires x < |findings| && Distinct(sorted) && forall m :: 0 <= m < |sorted| ==> sorted[m] < x
    requires StablySorted(lib, findings, sorted)
    ensures |r| == |sorted| + 1 && Distinct(r) && (forall y :: y in r <==> y in sorted || y == x)
    ensures (forall m :: 0 <= m < |r| ==> r[m] < |findings|) && StablySorted(lib, findings, r)
  {
    hide Before; hide InOrder;
    var n := |sorted|;
    while n > 0 && Before(lib, findings[x], findings[sorted[n - 1]])
      invariant 0 <= n <= |sorted|
      invariant forall m :: n <= m < |sorted| ==> InOrder(lib, findings, x, sorted[m])
    {
      PutBefore(lib, findings, x, sorted[n - 1]);
      n := n - 1;
    }
    AllBefore(lib, findings, sorted, n, x);
    r := sorted[..n] + [x] + sorted[n..];
    Inserted(lib, findings, sorted, n, x);
  }

  lemma AllBefore(lib: Library, findings: seq<Finding>, sorted: seq<nat>, n: nat, x: nat)
    requires x < |findings| && n <= |sorted| && forall m :: 0 <= m < |sorted| ==> sorted[m] < x
    requires StablySorted(lib, findings, sorted)
    requires n > 0 ==> !Before(lib, findings[x], findings[sorted[n - 1]])
    ensures forall m :: 0 <= m < n ==> InOrder(lib, findings, sorted[m], x)
  {
    hide Before; hide InOrder;
    forall m | 0 <= m < n ensures InOrder(lib, findings, sorted[m], x) {
      PutAfter(lib, findings, sorted[n - 1], x);
      if m < n - 1 {
        InOrderIsTransitive(lib, findings, sorted[m], sorted[n - 1], x);
      }
    }
  }

  lemma Inserted(lib: Library, findings: seq<Finding>, sorted: seq<nat>, n: nat, x: nat)
    requires x < |findings| && n <= |sorted| && Distinct(sorted) && forall m :: 0 <= m < |sorted| ==> sorted[m] < x
    requires StablySorted(lib, findings, sorted)
    requires forall m :: 0 <= m < n ==> InOrder(lib, findings, sorted[m], x)
    requires forall m :: n <= m < |sorted| ==> InOrder(lib, findings, x, sorted[m])
    ensures var r := sorted[..n] + [x] + sorted[n..];
            && Distinct(r) && (forall y :: y in r <==> y in sorted || y == x)
            && (forall m :: 0 <= m < |r| ==> r[m] < |findings|) && StablySorted(lib, findings, r)
  {
    hide InOrder;
    var r := sorted[..n] + [x] + sorted[n..];
    InsertedAt(sorted, n, x);
    InsertedMembers(sorted, n, x);
    forall m, k | 0 <= m < k < |r|
      ensures r[m] < |findings| && r[k] < |findings| && InOrder(lib, findings, r[m], r[k])
    {
      assert r[m] in r && r[k] in r;
    }
  }

  /** Where everything is after an insertion. */
  lemma InsertedAt(sorted: seq<nat>, n: nat, x: nat)
    requires n <= |sorted|
    ensures var r := sorted[..n] + [x] + sorted[n..];
            forall m :: 0 <= m < |r| ==> r[m] == if m < n then sorted[m] else if m == n then x else sorted[m - 1]
  {
  }

  lemma InsertedMembers(sorted: seq<nat>, n: nat, x: nat)
    requires n <= |sorted| && Distinct(sorted) && x !in sorted
    ensures var r := sorted[..n] + [x] + sorted[n..];
            Distinct(r) && forall y :: y in r <==> y in sorted || y == x
  {
    InsertedAt(sorted, n, x);
    assert sorted == sorted[..n] + sorted[n..];
  }

  lemma PutBefore(lib: Library, findings: seq<Finding>, x: nat, y: nat)
    requires x < |findings| && y < |findings| && Before(lib, findings[x], findings[y])
    ensures InOrder(lib, findings, x, y)
  {
  }

  lemma PutAfter(lib: Library, findings: seq<Finding>, y: nat, x: nat)
    requires y < x < |findings| && !Before(lib, findings[x], findings[y])
    ensures InOrder(lib, findings, y, x)
  {
  }

  /** Sorts one group. */
  method SortStable(lib: Library, findings: seq<Finding>, group: seq<nat>) returns (sorted: seq<nat>)
    requires Places(findings, group)
    ensures Arranged(lib, findings, group, sorted)
  {
    hide Before;
    sorted := [];
    var i := 0;
    while i < |group|
      invariant 0 <= i <= |group| && Arranged(lib, findings, group[..i], sorted)
    {
      assert forall m :: 0 <= m < |sorted| ==> sorted[m] in group[..i];
      assert group[..i + 1] == group[..i] + [group[i]];
      sorted := Insert(lib, findings, sorted, group[i]);
      i := i + 1;
    }
    assert group[..|group|] == group;
  }

  /** The candidates of every key, in first-seen order of the keys, each group stably sorted. */
  method GroupCandidates(lib: Library, findings: seq<Finding>)
    returns (groups: seq<seq<Finding>>, ghost places: seq<seq<nat>>)
    ensures |groups| == |places| == |Groups(KeysOf(lib, findings))|
            && Partition(Groups(KeysOf(lib, findings)), |findings|)
    ensures forall j :: 0 <= j < |groups| ==>
      && Arranged(lib, findings, Groups(KeysOf(lib, findings))[j], places[j])
      && |groups[j]| == |places[j]| && forall m :: 0 <= m < |groups[j]| ==> groups[j][m] == findings[places[j][m]]
    ensures forall j, f :: 0 <= j < |groups| && f in groups[j] ==> KeyOf(lib, f) == FirstSeen(KeysOf(lib, findings))[j]
    ensures forall j, l, f, g :: 0 <= j < |groups| && 0 <= l < |groups| && f in groups[j] && g in groups[l] ==>
              (j == l <==> Alike(lib, f, g))
    ensures forall j, m, n :: 0 <= j < |groups| && 0 <= m < n < |groups[j]| ==>
              Ranked(lib, groups[j][m], places[j][m], groups[j][n], places[j][n])
  {
    hide Before; hide StablySorted; hide Groups; hide FirstSeen; hide Positions;
    ghost var keys := KeysOf(lib, findings);
    var byKey := Group(KeysOf(lib, findings));
    GroupsArePartition(keys);
    groups, places := [], [];
    var j := 0;
    while j < |byKey|
      invariant 0 <= j <= |byKey| && |groups| == |places| == j
      invariant forall g :: 0 <= g < j ==> IsArrangedGroup(lib, findings, byKey[g], places[g], groups[g])
      invariant forall g :: 0 <= g < j ==> HaveKey(lib, findings, groups[g], FirstSeen(keys)[g])
    {
      GroupPlaces(lib, findings, j);
      var sorted := SortStable(lib, findings, byKey[j]);
      var group := Take(findings, sorted);
      GroupKeys(lib, findings, j, sorted, group);
      groups, places := groups + [group], places + [sorted];
      j := j + 1;
    }
    GroupsAreTold(lib, findings, groups, places);
  }

  /** What the keys and the arrangement say in terms of the candidates. */
  lemma GroupsAreTold(lib: Library, findings: seq<Finding>, groups: seq<seq<Finding>>, places: seq<seq<nat>>)
    requires |groups| == |places| == |Groups(KeysOf(lib, findings))|
    requires forall g :: 0 <= g < |groups| ==>
               && IsArrangedGroup(lib, findings, Groups(KeysOf(lib, findings))[g], places[g], groups[g])
               && HaveKey(lib, findings, groups[g], FirstSeen(KeysOf(lib, findings))[g])
    ensures forall j :: 0 <= j < |groups| ==> |groups[j]| == |places[j]|
    ensures forall j, l, f, g :: 0 <= j < |groups| && 0 <= l < |groups| && f in groups[j] && g in groups[l] ==>
              (j == l <==> Alike(lib, f, g))
    ensures forall j, m, n :: 0 <= j < |groups| && 0 <= m < n < |groups[j]| ==>
              Ranked(lib, groups[j][m], places[j][m], groups[j][n], places[j][n])
  {
    hide Alike; hide Ranked; hide KeyOf; hide Groups; hide FirstSeen; hide InOrder; hide KeysOf;
    var keys := KeysOf(lib, findings);
    forall j, l, f, g | 0 <= j < |groups| && 0 <= l < |groups| && f in groups[j] && g in groups[l]
      ensures j == l <==> Alike(lib, f, g)
    {
      KeysAgreeExactlyWhen(lib, f, g);
      assert KeyOf(lib, f) == FirstSeen(keys)[j] && KeyOf(lib, g) == FirstSeen(keys)[l];
    }
    forall j, m, n | 0 <= j < |groups| && 0 <= m < n < |groups[j]|
      ensures Ranked(lib, groups[j][m], places[j][m], groups[j][n], places[j][n])
    {
      assert InOrder(lib, findings, places[j][m], places[j][n]);
      InOrderIsRanked(lib, findings, places[j][m], places[j][n]);
    }
  }

  ghost predicate IsArrangedGroup(lib: Library, findings: seq<Finding>, group: seq<nat>, places: seq<nat>,
                                  taken: seq<Finding>) {
    && Arranged(lib, findings, group, places)
    && |taken| == |places| && forall m :: 0 <= m < |taken| ==> taken[m] == findings[places[m]]
  }

  ghost predicate HaveKey(lib: Library, findings: seq<Finding>, taken: seq<Finding>, k: Key) {
    forall f :: f in taken ==> KeyOf(lib, f) == k
  }

  lemma GroupPlaces(lib: Library, findings: seq<Finding>, j: nat)
    requires j < |Groups(KeysOf(lib, findings))|
    ensures Places(findings, Groups(KeysOf(lib, findings))[j])
  {
    GroupsArePartition(KeysOf(lib, findings));
  }

  lemma GroupKeys(lib: Library, findings: seq<Finding>, j: nat, places: seq<nat>, taken: seq<Finding>)
    requires j < |Groups(KeysOf(lib, findings))|
    requires IsArrangedGroup(lib, findings, Groups(KeysOf(lib, findings))[j], places, taken)
    ensures HaveKey(lib, findings, taken, FirstSeen(KeysOf(lib, findings))[j])
  {
    GroupMembers(KeysOf(lib, findings), j);
    forall f | f in taken ensures KeyOf(lib, f) == FirstSeen(KeysOf(lib, findings))[j] {
      var m :| 0 <= m < |taken| && taken[m] == f;
      assert places[m] in places;
    }
  }

  method Take(findings: seq<Finding>, places: seq<nat>) returns (taken: seq<Finding>)
    requires forall m :: 0 <= m < |places| ==> places[m] < |findings|
    ensures |taken| == |places| && forall m :: 0 <= m < |taken| ==> taken[m] == findings[places[m]]
  {
    taken := seq(|places|, m requires 0 <= m < |places| => findings[places[m]]);
  }

  // ---------------------------------------------------------------------------------------------
  // Verifying one group
  // ---------------------------------------------------------------------------------------------

  /** What the browser reports for one candidate. */
  datatype Execution = Execution(
    executed: bool, confidence: real, verificationPayload: string, interaction: string, dialogMessage: string,
    screenshot: string, console: string)

  /** A failed verification; `onlyCleanup` if the check itself went through. */
  datatype Failure = Failure(message: string, onlyCleanup: bool)

  /** What a call of the verifier delivers, a panic included. */
  datatype Report = Report(result: Option<Execution>, failure: Option<Failure>)

  const BOOST: real := 0.15

  function WithResult(f: Finding, x: Execution): Finding {
    var g := f.(evidence := f.evidence.(rest := x.console, verificationError := "",
                                        verificationPayload := x.verificationPayload,
                                        interaction := x.interaction));
    if x.executed then
      g.(evidence := g.evidence.(dialogMessage := x.dialogMessage), verified := true,
         executionConfidence := x.confidence,
         screenshot := x.screenshot, confidence := if f.confidence + BOOST < 1.0 then f.confidence + BOOST else 1.0)
    else if x.confidence > 0.0 then g.(executionConfidence := x.confidence)
    else g.(confidence := f.confidence * 0.85)
  }

  function WithError(f: Finding, result: Option<Execution>, failure: Failure): Finding {
    if result.Some? && result.value.executed && failure.onlyCleanup then
      var g := WithResult(f, result.value);
      g.(evidence := g.evidence.(verificationError := failure.message))
    else
      f.(verified := false, executionConfidence := 0.0, screenshot := "",
         evidence :=
           if result.Some? then
             f.evidence.(dialogMessage := "", verificationError := failure.message, rest := result.value.console,
                         verificationPayload := result.value.verificationPayload,
                             interaction := result.value.interaction)
           else f.evidence.(dialogMessage := "", verificationError := failure.message))
  }

  /** A candidate after it was checked. */
  function Checked(f: Finding, r: Report): Finding {
    if r.failure.Some? then WithError(f, r.result, r.failure.value)
    else if r.result.None? then WithError(f, None, Failure("execution verifier returned no result", false))
    else WithResult(f, r.result.value)
  }

  /** A finding without what verification sets; what remains says which candidate it is. */
  function Origin(f: Finding): Finding {
    f.(verified := false, executionConfidence := 0.0, screenshot := "", confidence := 0.0,
       evidence := Evidence("", "", "", "", ""))
  }

  function Origins(findings: seq<Finding>): seq<Finding> {
    seq(|findings|, i requires 0 <= i < |findings| => Origin(findings[i]))
  }

  function PayloadsOf(group: seq<Finding>): seq<string> {
    seq(|group|, i requires 0 <= i < |group| => group[i].payload)
  }

  lemma VerificationKeepsOrigin(f: Finding, r: Report, result: Option<Execution>, failure: Failure)
    ensures Origin(Checked(f, r)) == Origin(f) && Origin(WithError(f, result, failure)) == Origin(f)
    ensures Checked(f, r).payloads == f.payloads
    ensures !WithError(f, None, failure).verified
            && WithError(f, None, failure).evidence.verificationError == failure.message
  {
    if r.result.Some? {
      ResultKeepsOrigin(f, r.result.value);
    }
    if result.Some? {
      ResultKeepsOrigin(f, result.value);
    }
    hide WithResult;
  }

  /** The check went through and saw the payload run. */
  predicate Ran(r: Report) {
    r.result.Some? && r.result.value.executed && (r.failure.None? || r.failure.value.onlyCleanup)
  }

  /** The check went through and did not see the payload run. */
  predicate DidNotRun(r: Report) {
    r.result.Some? && !r.result.value.executed && r.failure.None?
  }

  /**
   * A candidate counts as verified exactly when the check went through and saw the payload run, or
   * when it was marked already and the check went through without seeing it run: that branch leaves
   * the mark, the screenshot and the dialog as they were. So the mark is right if and only if it is
   * not an old one of that kind. A failure is never hidden and leaves no trace of a proof, and
   * confidence stays within its range.
   */
  lemma CheckedIsHonest(f: Finding, r: Report)
    ensures var g := Checked(f, r);
            && (g.verified <==> Ran(r) || (f.verified && DidNotRun(r)))
            && ((g.verified <==> Ran(r)) <==> !(f.verified && DidNotRun(r)))
            && (DidNotRun(r) ==> g.screenshot == f.screenshot && g.evidence.dialogMessage == f.evidence.dialogMessage)
            && (r.failure.Some? ==> g.evidence.verificationError == r.failure.value.message)
            && (r.failure.None? && r.result.Some? ==> g.evidence.verificationError == "")
            && (Ran(r) ==>
                g.screenshot == r.result.value.screenshot && g.evidence.dialogMessage == r.result.value.dialogMessage
                           && g.executionConfidence == r.result.value.confidence)
            && (Ran(r) ==> g.confidence == (if f.confidence < 0.85 then f.confidence + 0.15 else 1.0))
            && (DidNotRun(r) ==>
                  if r.result.value.confidence > 0.0
                  then g.executionConfidence == r.result.value.confidence && g.confidence == f.confidence
                  else g.executionConfidence == f.executionConfidence && g.confidence == f.confidence * 0.85)
            && (r.result.Some? ==>
                  && g.evidence.rest == r.result.value.console && g.evidence.interaction == r.result.value.interaction
                  && g.evidence.verificationPayload == r.result.value.verificationPayload)
            && (r.result.None? && r.failure.None? ==>
                  g.evidence.verificationError == "execution verifier returned no result")
            && (!Ran(r) && r.failure.Some? ==>
                  g.screenshot == "" && g.evidence.dialogMessage == "" && g.executionConfidence == 0.0
                      && g.confidence == f.confidence)
            && (0.0 <= f.confidence <= 1.0 ==> 0.0 <= g.confidence <= 1.0)
  {
    if r.result.Some? && !r.result.value.executed && 0.0 <= f.confidence <= 1.0 {
      assert 0.0 <= f.confidence * 0.85 <= 1.0;
    }
  }

  lemma ResultKeepsOrigin(f: Finding, x: Execution)
    ensures Origin(WithResult(f, x)) == Origin(f) && WithResult(f, x).payloads == f.payloads
    ensures Origin(WithResult(f, x).(evidence := f.evidence)) == Origin(f)
  {
  }

  /** How the world behaves: when the context is done, and what the verifier reports on a candidate. */
  datatype Behaviour = Behaviour(done: nat -> Option<string>, verify: nat -> Report)

  /** Candidate `i` is reached, can be verified, and is verified. */
  predicate Succeeds(lib: Library, group: seq<Finding>, b: Behaviour, i: nat)
    requires i < |group|
  {
    lib.supported(group[i].payload) && Checked(group[i], b.verify(i)).verified
  }

  /** The first candidate that succeeds before the context is done. */
  ghost predicate FirstSuccess(lib: Library, group: seq<Finding>, b: Behaviour, i: nat) {
    && i < |group| && Succeeds(lib, group, b, i) && b.done(i).None?
    && forall j: nat :: j < i ==> b.done(j).None? && !Succeeds(lib, group, b, j)
  }

  /** One verified finding for the whole group, or every finding of it, unverified. */
  ghost predicate GroupOutcome(group: seq<Finding>, result: seq<Finding>) {
    || (|result| == 1 && result[0].verified
        && exists f :: f in group && Origin(result[0]) == Origin(f).(payloads := f.payloads + PayloadsOf(group)))
    || (|result| == |group| && (forall f :: f in result ==> !f.verified)
        && multiset(Origins(result)) == multiset(Origins(group)))
  }

  /** Verifies the candidates of a group until one of them is proven. */
  method VerifyCandidateGroup(lib: Library, group: seq<Finding>, b: Behaviour) returns (result: seq<Finding>)
    ensures GroupOutcome(group, result)
    ensures forall i: nat :: FirstSuccess(lib, group, b, i) ==>
              && i < |group|
              && result == [Checked(group[i], b.verify(i)).(payloads := group[i].payloads + PayloadsOf(group))]
    ensures (forall i: nat :: !FirstSuccess(lib, group, b, i)) ==>
              |result| == |group| && forall f :: f in result ==> !f.verified
  {
    hide Checked; hide WithError; hide Origin; hide PayloadsOf; hide AllAccounted; hide NoneYet; hide FirstSuccess;
    hide GroupOutcome; hide Origins;
    var checked: seq<Finding> := [];
    var unsupported: seq<Finding> := [];
    var i := 0;
    NothingAccounted(lib, group, b);
    while i < |group|
      invariant 0 <= i <= |group| && AllAccounted(group[..i], checked, unsupported) && NoneYet(lib, group, b, i)
    {
      if b.done(i).Some? {
        var rest := UnverifiedFindings(group[i..], b.done(i).value);
        assert group[..i] + group[i..] == group[..|group|];
        AccountMore(group[..i], checked, unsupported, group[i..], rest);
        checked := checked + rest;
        break;
      }
      assert group[..i] + [group[i]] == group[..i + 1];
      if !lib.supported(group[i].payload) {
        SetAside(group[..i], checked, unsupported, group[i]);
        NoneNext(lib, group, b, i);
        unsupported := unsupported + [group[i]];
      } else {
        var f := Checked(group[i], b.verify(i));
        VerificationKeepsOrigin(group[i], b.verify(i), None, Failure("", false));
        if f.verified {
          FoundFirst(lib, group, b, i);
          ProvenOutcome(group, group[i], f);
          return [f.(payloads := f.payloads + PayloadsOf(group))];
        }
        NoneNext(lib, group, b, i);
        AccountOne(group[..i], checked, unsupported, group[i], f);
        checked := checked + [f];
      }
      i := i + 1;
    }
    assert group[..|group|] == group;
    var failed := UnverifiedFindings(unsupported, "candidate has no supported dialog call for execution verification");
    AccountAside(group, checked, unsupported, failed);
    result := checked + failed;
    NoFirstSuccess(lib, group, b, i);
  }

  /** No candidate before `i` succeeded, and the context was not done. */
  ghost predicate NoneYet(lib: Library, group: seq<Finding>, b: Behaviour, i: nat) {
    i <= |group| && forall j: nat :: j < i ==> b.done(j).None? && !Succeeds(lib, group, b, j)
  }

  lemma NothingAccounted(lib: Library, group: seq<Finding>, b: Behaviour)
    ensures AllAccounted(group[..0], [], []) && NoneYet(lib, group, b, 0)
  {
    assert group[..0] == [];
  }

  lemma NoneNext(lib: Library, group: seq<Finding>, b: Behaviour, i: nat)
    requires NoneYet(lib, group, b, i) && i < |group| && b.done(i).None? && !Succeeds(lib, group, b, i)
    ensures NoneYet(lib, group, b, i + 1)
  {
  }

  lemma FoundFirst(lib: Library, group: seq<Finding>, b: Behaviour, i: nat)
    requires NoneYet(lib, group, b, i) && i < |group| && b.done(i).None? && Succeeds(lib, group, b, i)
    ensures forall j: nat :: FirstSuccess(lib, group, b, j) <==> j == i
  {
  }

  lemma NoFirstSuccess(lib: Library, group: seq<Finding>, b: Behaviour, i: nat)
    requires NoneYet(lib, group, b, i) && (i < |group| ==> b.done(i).Some?)
    ensures forall j: nat :: !FirstSuccess(lib, group, b, j)
  {
  }

  /** Everything seen so far was checked without success or set aside. */
  ghost predicate AllAccounted(seen: seq<Finding>, checked: seq<Finding>, unsupported: seq<Finding>) {
    && |seen| == |checked| + |unsupported|
    && (forall f :: f in checked ==> !f.verified)
    && multiset(Origins(seen)) == multiset(Origins(checked)) + multiset(Origins(unsupported))
  }

  lemma OriginsConcat(a: seq<Finding>, b: seq<Finding>)
    ensures Origins(a + b) == Origins(a) + Origins(b)
  {
  }

  lemma AccountMore(seen: seq<Finding>, checked: seq<Finding>, unsupported: seq<Finding>, more: seq<Finding>,
                    after: seq<Finding>)
    requires AllAccounted(seen, checked, unsupported)
    requires |after| == |more| && Origins(after) == Origins(more) && forall f :: f in after ==> !f.verified
    ensures AllAccounted(seen + more, checked + after, unsupported)
  {
    OriginsConcat(seen, more); OriginsConcat(checked, after);
  }

  lemma AccountOne(seen: seq<Finding>, checked: seq<Finding>, unsupported: seq<Finding>, f: Finding, g: Finding)
    requires AllAccounted(seen, checked, unsupported) && Origin(g) == Origin(f) && !g.verified
    ensures AllAccounted(seen + [f], checked + [g], unsupported)
  {
    hide Origin;
    AccountMore(seen, checked, unsupported, [f], [g]);
  }

  lemma SetAside(seen: seq<Finding>, checked: seq<Finding>, unsupported: seq<Finding>, f: Finding)
    requires AllAccounted(seen, checked, unsupported)
    ensures AllAccounted(seen + [f], checked, unsupported + [f])
  {
    OriginsConcat(seen, [f]); OriginsConcat(unsupported, [f]);
  }

  lemma AccountAside(seen: seq<Finding>, checked: seq<Finding>, unsupported: seq<Finding>, failed: seq<Finding>)
    requires AllAccounted(seen, checked, unsupported)
    requires |failed| == |unsupported| && Origins(failed) == Origins(unsupported)
             && forall f :: f in failed ==> !f.verified
    ensures GroupOutcome(seen, checked + failed) && |checked + failed| == |seen|
            && forall f :: f in checked + failed ==> !f.verified
  {
    OriginsConcat(checked, failed);
  }

  lemma ProvenOutcome(group: seq<Finding>, f: Finding, g: Finding)
    requires f in group && g.verified && Origin(g) == Origin(f) && g.payloads == f.payloads
    ensures GroupOutcome(group, [g.(payloads := g.payloads + PayloadsOf(group))])
  {
    hide PayloadsOf;
    var r := g.(payloads := g.payloads + PayloadsOf(group));
    assert Origin(r) == Origin(g).(payloads := f.payloads + PayloadsOf(group));
  }

  /** Findings that were not checked, with the reason. */
  method UnverifiedFindings(findings: seq<Finding>, reason: string) returns (out: seq<Finding>)
    ensures |out| == |findings| && Origins(out) == Origins(findings)
    ensures forall f :: f in out ==> !f.verified && f.evidence.verificationError == reason
  {
    hide Origin; hide WithError;
    out := [];
    var i := 0;
    while i < |findings|
      invariant 0 <= i <= |findings| && |out| == i
      invariant forall j :: 0 <= j < i ==> Origin(out[j]) == Origin(findings[j])
      invariant forall f :: f in out ==> !f.verified && f.evidence.verificationError == reason
    {
      VerificationKeepsOrigin(findings[i], Report(None, None), None, Failure(reason, false));
      out := out + [WithError(findings[i], None, Failure(reason, false))];
      i := i + 1;
    }
  }
}
