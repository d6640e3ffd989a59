/**
 * The run over all groups: a dispatcher that hands group numbers to at most four workers over an
 * unbuffered channel, and a context that may be cancelled at any moment (verifyGroups in
 * pkg/scanner/verification.go).
 */
module VerificationRun {
  import opened Findings
  import opened Prelude
  import opened Verification

  datatype Worker = Idle | Holding(group: nat) | Verifying(group: nat)

  datatype Ending = NotStarted | Completed | Failed | Canceled

  /** `open` while the dispatcher has not closed the channel. */
  datatype State = State(
    next: nat, open: bool, cancelled: bool, workers: seq<Worker>, results: seq<Option<seq<Finding>>>,
        endings: seq<Ending>)

  /** What can happen next. The outcome of verifying a group is whatever VerifyCandidateGroup may deliver. */
  datatype Label =
    | Cancel
    | Stop                                       // the dispatcher sees the cancelled context
    | Close                                      // the dispatcher has handed out everything
    | HandOver(w: nat)
    | Begin(w: nat)                              // the worker finds the context alive
    | Skip(w: nat, result: seq<Finding>)         // the worker finds it done
    | Finish(w: nat, result: seq<Finding>)

  ghost predicate Unverified(group: seq<Finding>, result: seq<Finding>) {
    |result| == |group| && Origins(result) == Origins(group) && forall f :: f in result ==> !f.verified
  }

  ghost predicate Enabled(groups: seq<seq<Finding>>, s: State, l: Label) {
    match l
    case Cancel => !s.cancelled
    case Stop => s.open && s.next < |groups| && s.cancelled
    case Close => s.open && s.next >= |groups|
    case HandOver(w) => s.open && s.next < |groups| && w < |s.workers| && s.workers[w].Idle?
    case Begin(w) => w < |s.workers| && s.workers[w].Holding? && !s.cancelled
    case Skip(w, result) =>
      w < |s.workers| && s.workers[w].Holding? && s.cancelled
      && s.workers[w].group < |groups| && Unverified(groups[s.workers[w].group], result)
    case Finish(w, result) =>
      w < |s.workers| && s.workers[w].Verifying?
      && s.workers[w].group < |groups| && GroupOutcome(groups[s.workers[w].group], result)
  }

  /** How a verified group is counted. */
  function EndingOf(result: seq<Finding>, cancelled: bool): Ending {
    if exists i :: 0 <= i < |result| && result[i].evidence.verificationError != "" then
      if cancelled then Canceled else Failed
    else Completed
  }

  ghost function Do(groups: seq<seq<Finding>>, s: State, l: Label): State
    requires Enabled(groups, s, l) && |s.results| == |s.endings| == |groups|
  {
    match l
    case Cancel => s.(cancelled := true)
    case Stop => s.(open := false)
    case Close => s.(open := false)
    case HandOver(w) => s.(workers := s.workers[w := Holding(s.next)], next := s.next + 1)
    case Begin(w) => s.(workers := s.workers[w := Verifying(s.workers[w].group)])
    case Skip(w, result) =>
      s.(workers := s.workers[w := Idle], results := s.results[s.workers[w].group := Some(result)])
    case Finish(w, result) =>
      s.(workers := s.workers[w := Idle], results := s.results[s.workers[w].group := Some(result)],
         endings := s.endings[s.workers[w].group := EndingOf(result, s.cancelled)])
  }

  function Repeat<T>(n: nat, x: T): (r: seq<T>)
    ensures |r| == n && forall i :: 0 <= i < n ==> r[i] == x
  {
    seq(n, i => x)
  }

  function Start(groups: seq<seq<Finding>>, cancelled: bool): State {
    State(0, true, cancelled, Repeat(if |groups| < 4 then |groups| else 4, Idle), Repeat(|groups|, None),
          Repeat(|groups|, NotStarted))
  }

  // ---------------------------------------------------------------------------------------------
  // What every step keeps
  // ---------------------------------------------------------------------------------------------

  ghost predicate Busy(s: State, i: nat) {
    exists w :: 0 <= w < |s.workers| && !s.workers[w].Idle? && s.workers[w].group == i
  }

  /** A group handed over is with one worker or has its result; the others are untouched. */
  ghost predicate GroupInv(groups: seq<seq<Finding>>, s: State, i: nat)
    requires i < |groups| == |s.results| == |s.endings|
  {
    if i >= s.next then s.results[i].None? && s.endings[i].NotStarted?
    else if s.results[i].None? then Busy(s, i) && s.endings[i].NotStarted?
    else
      && !Busy(s, i) && GroupOutcome(groups[i], s.results[i].value)
      && (s.endings[i].NotStarted? ==> Unverified(groups[i], s.results[i].value))
      && Counted(s.results[i].value, s.endings[i], s.cancelled)
  }

  /** Completed without an error in the result, failed or canceled with one, canceled only under a cancellation. */
  ghost predicate Counted(result: seq<Finding>, ending: Ending, cancelled: bool) {
    && (ending == Completed ==> forall f :: f in result ==> f.evidence.verificationError == "")
    && (ending == Failed || ending == Canceled ==> exists f :: f in result && f.evidence.verificationError != "")
    && (ending == Canceled ==> cancelled)
  }

  ghost predicate Inv(groups: seq<seq<Finding>>, s: State) {
    && |s.results| == |s.endings| == |groups| && s.next <= |groups|
    && |s.workers| == (if |groups| < 4 then |groups| else 4)
    && (!s.open && s.next < |groups| ==> s.cancelled)
    && (forall w :: 0 <= w < |s.workers| && !s.workers[w].Idle? ==> s.workers[w].group < s.next)
    && (forall v, w :: 0 <= v < w < |s.workers| && !s.workers[v].Idle? && !s.workers[w].Idle? ==>
        s.workers[v].group != s.workers[w].group)
    && (forall i :: 0 <= i < |groups| ==> GroupInv(groups, s, i))
  }

  lemma EndingIsCounted(result: seq<Finding>, cancelled: bool)
    ensures Counted(result, EndingOf(result, cancelled), cancelled)
  {
    if i :| 0 <= i < |result| && result[i].evidence.verificationError != "" {
      assert result[i] in result;
    }
  }

  lemma InvStart(groups: seq<seq<Finding>>, cancelled: bool)
    ensures Inv(groups, Start(groups, cancelled))
  {
  }

  lemma StillBusy(s: State, s': State, i: nat, w: nat)
    requires |s'.workers| == |s.workers| && w < |s.workers|
    requires forall v :: 0 <= v < |s.workers| && v != w ==> s'.workers[v] == s.workers[v]
    requires !s.workers[w].Idle? ==> s.workers[w].group != i
    requires !s'.workers[w].Idle? ==> s'.workers[w].group != i
    ensures Busy(s', i) <==> Busy(s, i)
  {
    if Busy(s, i) {
      var v :| 0 <= v < |s.workers| && !s.workers[v].Idle? && s.workers[v].group == i;
      assert s'.workers[v] == s.workers[v];
    }
    if Busy(s', i) {
      var v :| 0 <= v < |s.workers| && !s'.workers[v].Idle? && s'.workers[v].group == i;
      assert s'.workers[v] == s.workers[v];
    }
  }

  /** Unverified findings are one of the outcomes a group may have. */
  lemma UnverifiedIsAnOutcome(group: seq<Finding>, result: seq<Finding>)
    requires Unverified(group, result)
    ensures GroupOutcome(group, result)
  {
  }

  lemma InvHandOver(groups: seq<seq<Finding>>, s: State, l: Label)
    requires Inv(groups, s) && Enabled(groups, s, l) && l.HandOver?
    ensures Inv(groups, Do(groups, s, l))
  {
    hide GroupOutcome; hide Unverified; hide Busy;
    var s' := Do(groups, s, l);
    forall i | 0 <= i < |groups| ensures GroupInv(groups, s', i) {
      assert GroupInv(groups, s, i);
      if i == s.next {
        assert s'.workers[l.w] == Holding(i);
        NowBusy(s', i, l.w);
      } else {
        StillBusy(s, s', i, l.w);
      }
    }
  }

  lemma NowBusy(s: State, i: nat, w: nat)
    requires w < |s.workers| && !s.workers[w].Idle? && s.workers[w].group == i
    ensures Busy(s, i)
  {
  }

  lemma InvBegin(groups: seq<seq<Finding>>, s: State, l: Label)
    requires Inv(groups, s) && Enabled(groups, s, l) && l.Begin?
    ensures Inv(groups, Do(groups, s, l))
  {
    hide GroupOutcome; hide Unverified; hide Busy;
    var s', g := Do(groups, s, l), s.workers[l.w].group;
    forall i | 0 <= i < |groups| ensures GroupInv(groups, s', i) {
      assert GroupInv(groups, s, i);
      if i == g {
        NowBusy(s, i, l.w);
        NowBusy(s', i, l.w);
      } else {
        StillBusy(s, s', i, l.w);
      }
    }
  }

  /** A worker hands in the result of its group. */
  lemma InvHandIn(groups: seq<seq<Finding>>, s: State, w: nat, result: seq<Finding>, ending: Ending)
    requires Inv(groups, s) && w < |s.workers| && !s.workers[w].Idle? && s.workers[w].group < |groups|
    requires GroupOutcome(groups[s.workers[w].group], result)
    requires ending.NotStarted? ==> Unverified(groups[s.workers[w].group], result)
    requires Counted(result, ending, s.cancelled)
    ensures var g := s.workers[w].group;
            Inv(groups,
                s.(workers := s.workers[w := Idle], results := s.results[g := Some(result)],
                   endings := s.endings[g := ending]))
  {
    hide GroupOutcome; hide Unverified; hide Busy;
    var g := s.workers[w].group;
    var s' := s.(workers := s.workers[w := Idle], results := s.results[g := Some(result)],
                 endings := s.endings[g := ending]);
    forall i | 0 <= i < |groups| ensures GroupInv(groups, s', i) {
      assert GroupInv(groups, s, i);
      if i == g {
        NoLongerBusy(s, s', w);
      } else {
        StillBusy(s, s', i, w);
      }
    }
  }

  lemma NoLongerBusy(s: State, s': State, w: nat)
    requires w < |s.workers| && !s.workers[w].Idle? && s'.workers == s.workers[w := Idle]
    requires forall u, v :: 0 <= u < v < |s.workers| && !s.workers[u].Idle? && !s.workers[v].Idle? ==>
             s.workers[u].group != s.workers[v].group
    ensures !Busy(s', s.workers[w].group)
  {
  }

  lemma InvStep(groups: seq<seq<Finding>>, s: State, l: Label)
    requires Inv(groups, s) && Enabled(groups, s, l)
    ensures Inv(groups, Do(groups, s, l))
  {
    hide GroupOutcome; hide Unverified;
    if l.HandOver? {
      InvHandOver(groups, s, l);
    } else if l.Begin? {
      InvBegin(groups, s, l);
    } else if l.Skip? {
      UnverifiedIsAnOutcome(groups[s.workers[l.w].group], l.result);
      SkipKeepsEnding(groups, s, l.w);
      InvHandIn(groups, s, l.w, l.result, NotStarted);
    } else if l.Finish? {
      EndingIsCounted(l.result, s.cancelled);
      InvHandIn(groups, s, l.w, l.result, EndingOf(l.result, s.cancelled));
    } else {
      forall i | 0 <= i < |groups| ensures GroupInv(groups, Do(groups, s, l), i) {
        assert GroupInv(groups, s, i);
      }
    }
  }

  lemma SkipKeepsEnding(groups: seq<seq<Finding>>, s: State, w: nat)
    requires Inv(groups, s) && w < |s.workers| && !s.workers[w].Idle? && s.workers[w].group < |groups|
    ensures s.endings[s.workers[w].group := NotStarted] == s.endings
  {
    hide GroupOutcome; hide Unverified;
    assert GroupInv(groups, s, s.workers[w].group);
    NowBusy(s, s.workers[w].group, w);
  }

  // ---------------------------------------------------------------------------------------------
  // Whole runs
  // ---------------------------------------------------------------------------------------------

  /** A sequence of steps from the start. */
  ghost predicate Runs(groups: seq<seq<Finding>>, cancelled: bool, labels: seq<Label>, s: State)
    decreases |labels|
  {
    if labels == [] then s == Start(groups, cancelled)
    else exists before ::
      && Runs(groups, cancelled, labels[..|labels| - 1], before) && |before.results| == |before.endings| == |groups|
      && Enabled(groups, before, labels[|labels| - 1]) && s == Do(groups, before, labels[|labels| - 1])
  }

  /** The dispatcher has closed the channel and every worker has returned. */
  predicate Over(s: State) {
    !s.open && forall w :: 0 <= w < |s.workers| ==> s.workers[w].Idle?
  }

  lemma {:induction false} InvRuns(groups: seq<seq<Finding>>, cancelled: bool, labels: seq<Label>, s: State)
    requires Runs(groups, cancelled, labels, s)
    ensures Inv(groups, s)
    decreases |labels|
  {
    hide Inv; hide Enabled; hide Do;
    if labels == [] {
      InvStart(groups, cancelled);
    } else {
      var before :| Runs(groups, cancelled, labels[..|labels| - 1], before)
          && |before.results| == |before.endings| == |groups|
                    && Enabled(groups, before, labels[|labels| - 1]) && s == Do(groups, before, labels[|labels| - 1]);
      InvRuns(groups, cancelled, labels[..|labels| - 1], before);
      InvStep(groups, before, labels[|labels| - 1]);
    }
  }

  /** As long as the run is not over something other than a cancellation can happen. */
  lemma NoDeadlock(groups: seq<seq<Finding>>, cancelled: bool, labels: seq<Label>, s: State)
    requires Runs(groups, cancelled, labels, s) && !Over(s)
    ensures exists l: Label :: !l.Cancel? && Enabled(groups, s, l)
  {
    InvRuns(groups, cancelled, labels, s);
    if w :| 0 <= w < |s.workers| && !s.workers[w].Idle? {
      var g := s.workers[w].group;
      if s.workers[w].Verifying? {
        var result := AsUnverified(groups[g]);
        UnverifiedIsAnOutcome(groups[g], result);
        assert Enabled(groups, s, Finish(w, result));
      } else if s.cancelled {
        var result := AsUnverified(groups[g]);
        assert Enabled(groups, s, Skip(w, result));
      } else {
        assert Enabled(groups, s, Begin(w));
      }
    } else {
      if s.next >= |groups| {
        assert Enabled(groups, s, Close);
      } else {
        assert Enabled(groups, s, HandOver(0));
      }
    }
  }

  lemma AsUnverified(group: seq<Finding>) returns (result: seq<Finding>)
    ensures Unverified(group, result)
  {
    result := seq(|group|, i requires 0 <= i < |group| => WithError(group[i], None, Failure("", false)));
    forall i | 0 <= i < |group| ensures Origin(result[i]) == Origin(group[i]) && !result[i].verified {
      VerificationKeepsOrigin(group[i], Report(None, None), None, Failure("", false));
    }
    assert Origins(result) == Origins(group);
  }

  /** The work left: groups to hand over, steps of workers, closing and cancelling. */
  function Measure(groups: seq<seq<Finding>>, s: State): int {
    4 * (|groups| - s.next) + WorkLeft(s.workers) + (if s.open then 1 else 0) + (if s.cancelled then 0 else 1)
  }

  function WorkLeft(workers: seq<Worker>): nat {
    if workers == [] then 0
    else
      WorkLeft(workers[..|workers| - 1])
      + match workers[|workers| - 1]
        case Idle => 0
        case Holding(_) => 2
        case Verifying(_) => 1
  }

  lemma {:induction false} WorkUpdate(workers: seq<Worker>, w: nat, x: Worker)
    requires w < |workers|
    ensures WorkLeft(workers[w := x]) == WorkLeft(workers) - WorkLeft([workers[w]]) + WorkLeft([x])
  {
    var n := |workers| - 1;
    assert [x][..0] == [] && [workers[w]][..0] == [];
    if w < n {
      WorkUpdate(workers[..n], w, x);
      assert workers[w := x][..n] == workers[..n][w := x];
    } else {
      assert workers[w := x][..n] == workers[..n];
    }
  }

  /** Every step leaves less to do, so every run ends. */
  lemma MeasureFalls(groups: seq<seq<Finding>>, s: State, l: Label)
    requires Inv(groups, s) && Enabled(groups, s, l)
    ensures 0 <= Measure(groups, Do(groups, s, l)) < Measure(groups, s)
  {
    hide GroupOutcome; hide Unverified; hide GroupInv;
    if l.HandOver? || l.Begin? || l.Skip? || l.Finish? {
      WorkUpdate(s.workers, l.w, Do(groups, s, l).workers[l.w]);
    }
  }

  /** What is reported in the end: every group's result, or its findings unverified if it was never handed over. */
  ghost predicate Collected(groups: seq<seq<Finding>>, s: State, out: seq<seq<Finding>>) {
    && |out| == |groups|
    && forall i :: 0 <= i < |groups| ==>
         if i < s.next then i < |s.results| && s.results[i] == Some(out[i]) else Unverified(groups[i], out[i])
  }

  function Tally(endings: seq<Ending>, e: Ending): nat {
    if endings == [] then 0 else Tally(endings[..|endings| - 1], e) + if endings[|endings| - 1] == e then 1 else 0
  }

  lemma {:induction false} TalliesAddUp(endings: seq<Ending>)
    ensures Tally(endings, Completed) + Tally(endings, Failed) + Tally(endings, Canceled) + Tally(endings, NotStarted)
            == |endings|
  {
    if endings != [] {
      TalliesAddUp(endings[..|endings| - 1]);
    }
  }

  /**
   * Whenever the context is cancelled and whatever the verifier does: when the run is over, no group
   * is lost. Each is reported as one verified finding or with all its findings; those counted as not
   * started are reported unverified; and started plus not started is what was planned.
   */
  lemma NoGroupIsLost(groups: seq<seq<Finding>>, cancelled: bool, labels: seq<Label>, s: State, out: seq<seq<Finding>>)
    requires Runs(groups, cancelled, labels, s) && Over(s) && Collected(groups, s, out)
    ensures |out| == |groups| == |s.endings|
    ensures forall i :: 0 <= i < |groups| ==> GroupOutcome(groups[i], out[i])
    ensures forall i :: 0 <= i < |groups| && s.endings[i].NotStarted? ==> Unverified(groups[i], out[i])
    ensures forall i :: 0 <= i < |groups| ==> Counted(out[i], s.endings[i], s.cancelled)
    ensures Tally(s.endings, Completed) + Tally(s.endings, Failed) + Tally(s.endings, Canceled)
            + Tally(s.endings, NotStarted) == |groups|
    ensures !s.cancelled ==> s.next == |groups|
  {
    hide GroupOutcome; hide Unverified;
    InvRuns(groups, cancelled, labels, s);
    TalliesAddUp(s.endings);
    forall i | 0 <= i < |groups|
      ensures GroupOutcome(groups[i], out[i]) && (s.endings[i].NotStarted? ==> Unverified(groups[i], out[i]))
      ensures Counted(out[i], s.endings[i], s.cancelled)
    {
      assert GroupInv(groups, s, i);
      if i >= s.next {
        UnverifiedIsAnOutcome(groups[i], out[i]);
      }
    }
  }

  /** Every group handed over has a result when the run is over. */
  lemma EveryHandOverIsAnswered(groups: seq<seq<Finding>>, cancelled: bool, labels: seq<Label>, s: State, i: nat)
    requires Runs(groups, cancelled, labels, s) && Over(s) && i < s.next
    ensures i < |s.results| && s.results[i].Some?
  {
    InvRuns(groups, cancelled, labels, s);
    assert GroupInv(groups, s, i);
  }

  /** Without a cancellation every group is verified. */
  lemma UncancelledRunsStartEverything(groups: seq<seq<Finding>>, labels: seq<Label>, s: State)
    requires Runs(groups, false, labels, s) && Over(s) && !s.cancelled
    ensures |s.endings| == |groups| && forall i :: 0 <= i < |groups| ==> !s.endings[i].NotStarted?
    decreases |labels|
  {
    InvRuns(groups, false, labels, s);
    StartedUnlessCancelled(groups, labels, s);
    forall i | 0 <= i < |groups| ensures !s.endings[i].NotStarted? {
      assert GroupInv(groups, s, i);
    }
  }

  ghost predicate ResultsStarted(s: State) {
    |s.results| == |s.endings| && forall i :: 0 <= i < |s.results| && s.results[i].Some? ==> !s.endings[i].NotStarted?
  }

  lemma StepsStart(groups: seq<seq<Finding>>, s: State, l: Label)
    requires |s.results| == |s.endings| == |groups| && Enabled(groups, s, l) && !s.cancelled && ResultsStarted(s)
    ensures ResultsStarted(Do(groups, s, l))
  {
    hide GroupOutcome; hide Unverified;
  }

  /** As long as the context lives, no worker skips a group. */
  lemma {:induction false} StartedUnlessCancelled(groups: seq<seq<Finding>>, labels: seq<Label>, s: State)
    requires Runs(groups, false, labels, s) && !s.cancelled
    ensures |s.results| == |groups| && ResultsStarted(s)
    decreases |labels|
  {
    hide GroupOutcome; hide Unverified; hide ResultsStarted; hide Enabled; hide Do;
    if labels == [] {
      assert ResultsStarted(Start(groups, false)) by { NothingStarted(groups); }
    } else {
      var before :| Runs(groups, false, labels[..|labels| - 1], before)
          && |before.results| == |before.endings| == |groups|
                    && Enabled(groups, before, labels[|labels| - 1]) && s == Do(groups, before, labels[|labels| - 1]);
      CancelledStays(groups, before, labels[|labels| - 1]);
      StartedUnlessCancelled(groups, labels[..|labels| - 1], before);
      StepsStart(groups, before, labels[|labels| - 1]);
    }
  }

  lemma CancelledStays(groups: seq<seq<Finding>>, s: State, l: Label)
    requires |s.results| == |s.endings| == |groups| && Enabled(groups, s, l)
    ensures s.cancelled ==> Do(groups, s, l).cancelled
    ensures |Do(groups, s, l).results| == |groups|
  {
  }

  lemma NothingStarted(groups: seq<seq<Finding>>)
    ensures ResultsStarted(Start(groups, false))
  {
  }
}
