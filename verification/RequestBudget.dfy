/** The request counter of pkg/requestbudget/budget.go: a compare-and-swap loop run by many tasks. */
module RequestBudget {
  import opened Prelude

  // ---------------------------------------------------------------------------------------------
  // Tasks and their interleavings
  // ---------------------------------------------------------------------------------------------

  /** Where a task is in Take: outside it, about to load, or holding the value it loaded. */
  datatype Task = Outside | Loading | Loaded(n: int)

  /** The counter, its tasks, and a record of what happened: calls granted and swaps that failed. */
  datatype State = State(limit: int, count: int, denied: nat, tasks: seq<Task>, granted: nat, failures: nat) {
    predicate Spent(n: int) {
      limit > 0 && n >= limit
    }
  }

  /** The next atomic action of task `t`. */
  function Step(s: State, t: nat): State {
    if t >= |s.tasks| then s
    else match s.tasks[t]
    case Outside => s.(tasks := s.tasks[t := Loading])
    case Loading => s.(tasks := s.tasks[t := Loaded(s.count)])
    case Loaded(n) =>
      if s.Spent(n) then s.(denied := s.denied + 1, tasks := s.tasks[t := Outside])
      else if s.count == n then s.(count := n + 1, granted := s.granted + 1, tasks := s.tasks[t := Outside])
      else s.(failures := s.failures + 1, tasks := s.tasks[t := Loading])
  }

  function Run(s: State, schedule: seq<nat>): (r: State)
    ensures |r.tasks| == |s.tasks| && r.limit == s.limit
  {
    if schedule == [] then s
    else Step(Run(s, schedule[..|schedule| - 1]), schedule[|schedule| - 1])
  }

  predicate Start(s: State) {
    s.count == 0 && s.denied == 0 && s.granted == 0 && s.failures == 0
        && forall t :: 0 <= t < |s.tasks| ==> s.tasks[t].Outside?
  }

  /** The tasks whose swap will fail because the counter moved on. */
  function Stale(tasks: seq<Task>, count: int): nat {
    if tasks == [] then 0
    else Stale(tasks[..|tasks| - 1], count) + IsStale(tasks[|tasks| - 1], count)
  }

  function IsStale(t: Task, count: int): nat {
    if t.Loaded? && t.n != count then 1 else 0
  }

  lemma {:induction false} StaleUpdate(tasks: seq<Task>, count: int, t: nat, x: Task)
    requires t < |tasks|
    ensures Stale(tasks[t := x], count) == Stale(tasks, count) - IsStale(tasks[t], count) + IsStale(x, count)
  {
    var n := |tasks| - 1;
    if t < n {
      StaleUpdate(tasks[..n], count, t, x);
      assert tasks[t := x][..n] == tasks[..n][t := x];
    } else {
      assert tasks[t := x][..n] == tasks[..n];
    }
  }

  lemma {:induction false} StaleAtMost(tasks: seq<Task>, count: int)
    ensures Stale(tasks, count) <= |tasks|
  {
    if tasks != [] {
      StaleAtMost(tasks[..|tasks| - 1], count);
    }
  }

  ghost predicate Inv(s: State) {
    && s.count == s.granted
    && (s.limit > 0 ==> s.count <= s.limit)
    && (s.denied > 0 ==> s.limit > 0 && s.count == s.limit)
    && (forall t :: 0 <= t < |s.tasks| && s.tasks[t].Loaded? ==> s.tasks[t].n <= s.count)
    && s.failures + Stale(s.tasks, s.count) <= Rivals(s) * s.granted
  }

  /** The other tasks. */
  function Rivals(s: State): nat {
    if s.tasks == [] then 0 else |s.tasks| - 1
  }

  /** A task that is outside Take is not stale, so at most the others are. */
  lemma StaleOthers(tasks: seq<Task>, count: int, t: nat)
    requires t < |tasks| && tasks[t].Outside?
    ensures Stale(tasks, count) <= |tasks| - 1
  {
    hide Stale;
    var front, x, back := tasks[..t], [tasks[t]], tasks[t + 1..];
    assert tasks == front + x + back;
    StaleConcat(front + x, back, count);
    StaleConcat(front, x, count);
    NotStale(tasks[t], count);
    StaleAtMost(front, count);
    StaleAtMost(back, count);
  }

  lemma NotStale(x: Task, count: int)
    requires x.Outside?
    ensures Stale([x], count) == 0
  {
    assert [x][..0] == [];
  }

  lemma {:induction false} StaleConcat(a: seq<Task>, b: seq<Task>, count: int)
    ensures Stale(a + b, count) == Stale(a, count) + Stale(b, count)
  {
    if b == [] {
      assert a + b == a;
    } else {
      assert (a + b)[..|a + b| - 1] == a + b[..|b| - 1];
      StaleConcat(a, b[..|b| - 1], count);
    }
  }

  lemma InvGrant(s: State, t: nat)
    requires Inv(s) && t < |s.tasks| && s.tasks[t] == Loaded(s.count) && !s.Spent(s.count)
    ensures Inv(Step(s, t))
  {
    var s' := Step(s, t);
    StaleOthers(s'.tasks, s'.count, t);
    assert Rivals(s) * (s.granted + 1) == Rivals(s) * s.granted + Rivals(s);
    StaleAtMost(s.tasks, s.count);
  }

  lemma InvStep(s: State, t: nat)
    requires Inv(s)
    ensures Inv(Step(s, t))
  {
    if t < |s.tasks| {
      if s.tasks[t] == Loaded(s.count) && !s.Spent(s.count) {
        InvGrant(s, t);
      } else {
        var s' := Step(s, t);
        StaleUpdate(s.tasks, s.count, t, s'.tasks[t]);
        assert Rivals(s') * s'.granted == Rivals(s) * s.granted;
      }
    }
  }

  lemma {:induction false} InvRun(s: State, schedule: seq<nat>)
    requires Start(s)
    ensures Inv(Run(s, schedule))
  {
    if schedule == [] {
      StaleAtStart(s.tasks);
    } else {
      InvRun(s, schedule[..|schedule| - 1]);
      InvStep(Run(s, schedule[..|schedule| - 1]), schedule[|schedule| - 1]);
    }
  }

  lemma {:induction false} StaleAtStart(tasks: seq<Task>)
    requires forall t :: 0 <= t < |tasks| ==> tasks[t].Outside?
    ensures Stale(tasks, 0) == 0
  {
    if tasks != [] {
      StaleAtStart(tasks[..|tasks| - 1]);
    }
  }

  /**
   * In every interleaving the counter equals the number of grants, a positive limit is never
   * exceeded, and of the calls completed so far exactly as many were granted as the limit allows.
   */
  lemma GrantsAreExact(s: State, schedule: seq<nat>)
    requires Start(s)
    ensures var r := Run(s, schedule);
            && r.count == r.granted
            && var completed := r.granted + r.denied;
            r.granted == if s.limit > 0 && completed > s.limit then s.limit else completed
  {
    InvRun(s, schedule);
  }

  // ---------------------------------------------------------------------------------------------
  // Why a swap fails
  // ---------------------------------------------------------------------------------------------

  /** The state in which step `k` of the schedule is taken. */
  function Before(s: State, schedule: seq<nat>, k: nat): (r: State)
    requires k <= |schedule|
    ensures |r.tasks| == |s.tasks| && r.limit == s.limit
  {
    Run(s, schedule[..k])
  }

  lemma OneStep(s: State, schedule: seq<nat>, k: nat)
    requires k < |schedule|
    ensures Before(s, schedule, k + 1) == Step(Before(s, schedule, k), schedule[k])
  {
    assert schedule[..k + 1][..k] == schedule[..k];
  }

  /** Step `k` loads the counter. */
  predicate Loads(s: State, schedule: seq<nat>, k: nat) {
    && k < |schedule| && schedule[k] < |s.tasks|
    && Before(s, schedule, k).tasks[schedule[k]].Loading?
  }

  /** Step `k` is a swap that succeeds. */
  predicate Grants(s: State, schedule: seq<nat>, k: nat) {
    && k < |schedule| && schedule[k] < |s.tasks|
    && var b := Before(s, schedule, k);
    b.tasks[schedule[k]] == Loaded(b.count) && (s.limit <= 0 || b.count < s.limit)
  }

  /** Step `k` is a swap that finds the counter moved. */
  predicate Fails(s: State, schedule: seq<nat>, k: nat) {
    && k < |schedule| && schedule[k] < |s.tasks|
    && var b := Before(s, schedule, k);
    var task := b.tasks[schedule[k]];
    task.Loaded? && (s.limit <= 0 || task.n < s.limit) && b.count != task.n
  }

  /** Step `k` denies a call, since the limit was loaded. */
  predicate Denies(s: State, schedule: seq<nat>, k: nat) {
    && k < |schedule| && schedule[k] < |s.tasks|
    && var task := Before(s, schedule, k).tasks[schedule[k]];
    task.Loaded? && 0 < s.limit <= task.n
  }

  /** The steps of each kind. */
  function Granted(s: State, schedule: seq<nat>): set<nat> {
    set k: nat | k < |schedule| && Grants(s, schedule, k)
  }

  function Failed(s: State, schedule: seq<nat>): set<nat> {
    set k: nat | k < |schedule| && Fails(s, schedule, k)
  }

  function Denied(s: State, schedule: seq<nat>): set<nat> {
    set k: nat | k < |schedule| && Denies(s, schedule, k)
  }

  /** The record says exactly how many swaps succeeded and failed and how many calls were denied. */
  lemma {:induction false} RecordIsExact(s: State, schedule: seq<nat>)
    requires Start(s)
    ensures var r := Run(s, schedule);
            r.granted == |Granted(s, schedule)| && r.failures == |Failed(s, schedule)|
            && r.denied == |Denied(s, schedule)|
  {
    hide Grants; hide Fails; hide Denies; hide Step; hide Granted; hide Failed; hide Denied;
    if schedule == [] {
      NoSteps(s);
    } else {
      RecordIsExact(s, schedule[..|schedule| - 1]);
      StepsSoFar(s, schedule);
      LastStep(s, schedule);
    }
  }

  lemma NoSteps(s: State)
    ensures Granted(s, []) == {} && Failed(s, []) == {} && Denied(s, []) == {}
  {
  }

  /** One step more counts at most itself among the steps of each kind. */
  lemma StepsSoFar(s: State, schedule: seq<nat>)
    requires schedule != []
    ensures var n := |schedule| - 1;
            var init := schedule[..n];
            && |Granted(s, schedule)| == |Granted(s, init)| + (if Grants(s, schedule, n) then 1 else 0)
            && |Failed(s, schedule)| == |Failed(s, init)| + (if Fails(s, schedule, n) then 1 else 0)
            && |Denied(s, schedule)| == |Denied(s, init)| + (if Denies(s, schedule, n) then 1 else 0)
  {
    hide Grants; hide Fails; hide Denies;
    var n := |schedule| - 1;
    var init := schedule[..n];
    forall k: nat | k < n
      ensures Grants(s, schedule, k) == Grants(s, init, k) && Fails(s, schedule, k) == Fails(s, init, k)
      ensures Denies(s, schedule, k) == Denies(s, init, k)
    {
      SameBefore(s, schedule, k);
    }
    OneMore(Granted(s, init), Granted(s, schedule), n);
    OneMore(Failed(s, init), Failed(s, schedule), n);
    OneMore(Denied(s, init), Denied(s, schedule), n);
  }

  /** What step `k` is does not depend on later steps. */
  lemma SameBefore(s: State, schedule: seq<nat>, k: nat)
    requires k + 1 < |schedule|
    ensures var init := schedule[..|schedule| - 1];
            && Grants(s, schedule, k) == Grants(s, init, k) && Fails(s, schedule, k) == Fails(s, init, k)
            && Denies(s, schedule, k) == Denies(s, init, k)
  {
    assert schedule[..|schedule| - 1][..k] == schedule[..k];
  }

  lemma OneMore(few: set<nat>, all: set<nat>, n: nat)
    requires n !in few && (all == few || all == few + {n})
    ensures |all| == |few| + if n in all then 1 else 0
  {
  }

  lemma LastStep(s: State, schedule: seq<nat>)
    requires schedule != []
    ensures var r, b, n := Run(s, schedule), Run(s, schedule[..|schedule| - 1]), |schedule| - 1;
            && r.granted == b.granted + (if Grants(s, schedule, n) then 1 else 0)
            && r.failures == b.failures + (if Fails(s, schedule, n) then 1 else 0)
            && r.denied == b.denied + (if Denies(s, schedule, n) then 1 else 0)
  {
    OneStep(s, schedule, |schedule| - 1);
    assert schedule[..|schedule|] == schedule;
  }

  /** A task that holds a value loaded it in its last step, and it was the counter then. */
  lemma {:induction false} LastLoad(s: State, schedule: seq<nat>, k: nat, t: nat) returns (i: nat)
    requires Start(s) && k <= |schedule| && t < |s.tasks| && Before(s, schedule, k).tasks[t].Loaded?
    ensures i < k && schedule[i] == t && Loads(s, schedule, i) && (forall m :: i < m < k ==> schedule[m] != t)
    ensures Before(s, schedule, k).tasks[t] == Loaded(Before(s, schedule, i).count)
  {
    if k == 0 {
      assert false;
    } else {
      OneStep(s, schedule, k - 1);
      if schedule[k - 1] == t {
        i := k - 1;
      } else {
        i := LastLoad(s, schedule, k - 1, t);
      }
    }
  }

  /** Where the counter differs, a swap has succeeded in between. */
  lemma {:induction false} ChangedByGrant(s: State, schedule: seq<nat>, i: nat, k: nat) returns (j: nat)
    requires i <= k <= |schedule| && Before(s, schedule, i).count != Before(s, schedule, k).count
    ensures i <= j < k && Grants(s, schedule, j)
    decreases k
  {
    OneStep(s, schedule, k - 1);
    if Before(s, schedule, k - 1).count != Before(s, schedule, k).count {
      j := k - 1;
    } else {
      j := ChangedByGrant(s, schedule, i, k - 1);
    }
  }

  /**
   * Whenever a swap fails, another task's swap succeeded after this task's latest load: `i` is that
   * load and `j` the success.
   */
  lemma EveryFailureIsExplained(s: State, schedule: seq<nat>, k: nat) returns (i: nat, j: nat)
    requires Start(s) && Fails(s, schedule, k)
    ensures i < j < k
    ensures schedule[i] == schedule[k] && Loads(s, schedule, i) && forall m :: i < m < k ==> schedule[m] != schedule[k]
    ensures schedule[j] != schedule[k] && Grants(s, schedule, j)
  {
    hide Before;
    i := LastLoad(s, schedule, k, schedule[k]);
    OneStep(s, schedule, i);
    j := ChangedByGrant(s, schedule, i + 1, k);
  }

  /**
   * Together: there are at most as many failures as other tasks for every grant. With a positive
   * limit they come to an end, so every call does.
   */
  lemma FailuresAreExplained(s: State, schedule: seq<nat>)
    requires Start(s)
    ensures Run(s, schedule).failures <= Rivals(s) * Run(s, schedule).granted
    ensures s.limit > 0 ==> Run(s, schedule).failures <= Rivals(s) * s.limit
  {
    hide Run; hide Rivals;
    InvRun(s, schedule);
    RivalsStay(s, schedule);
    if s.limit > 0 {
      TimesMonotone(Rivals(s), Run(s, schedule).granted, s.limit);
    }
  }

  lemma RivalsStay(s: State, schedule: seq<nat>)
    ensures Rivals(Run(s, schedule)) == Rivals(s)
  {
  }

  lemma TimesMonotone(x: nat, y: nat, z: nat)
    requires y <= z
    ensures x * y <= x * z
  {
    assert x * z == x * y + x * (z - y);
  }

  /** Once a call was denied, no later call is granted. */
  lemma {:induction false} DenialIsPermanent(s: State, before: seq<nat>, after: seq<nat>)
    requires Start(s)
    requires Run(s, before).denied > 0
    ensures Run(s, before + after).granted == Run(s, before).granted == s.limit
  {
    InvRun(s, before); InvRun(s, before + after);
    OnlyMoreDenials(s, before, after);
  }

  lemma {:induction false} OnlyMoreDenials(s: State, before: seq<nat>, after: seq<nat>)
    ensures Run(s, before).denied <= Run(s, before + after).denied
  {
    if after == [] {
      assert before + after == before;
    } else {
      var init := after[..|after| - 1];
      assert (before + after)[..|before + after| - 1] == before + init;
      OnlyMoreDenials(s, before, init);
    }
  }

  // ---------------------------------------------------------------------------------------------
  // One call
  // ---------------------------------------------------------------------------------------------

  function Sum(ns: seq<nat>): nat {
    if ns == [] then 0 else Sum(ns[..|ns| - 1]) + ns[|ns| - 1]
  }

  class Counter {
    const limit: int
    var count: int
    var denied: int

    constructor (limit: int)
      ensures this.limit == limit && count == 0 && denied == 0
    {
      this.limit := limit;
      count, denied := 0, 0;
    }

    ghost predicate Valid()
      reads this
    {
      count >= 0 && denied >= 0 && (limit > 0 ==> count <= limit)
    }

    /** Grants to other tasks; like any grants they respect the limit. */
    method Interfere(wanted: nat) returns (taken: nat)
      requires Valid()
      modifies this`count
      ensures Valid() && taken <= wanted && count == old(count) + taken
    {
      taken := if limit > 0 && wanted > limit - count then limit - count else wanted;
      count := count + taken;
    }

    /**
     * Takes one request from the budget. `rivals[i]` other tasks try to get in between this call's
     * load number `i` and its swap; a swap that finds the counter moved is tried again.
     */
    method Take(rivals: seq<nat>) returns (ok: bool, ghost others: nat)
      requires Valid()
      modifies this`count, this`denied
      ensures Valid() && others <= Sum(rivals)
      ensures count == old(count) + others + (if ok then 1 else 0)
      ensures denied == old(denied) + (if ok then 0 else 1)
      ensures !ok ==> limit > 0 && count == limit
      ensures limit > 0 && old(count) == limit ==> !ok
      ensures limit > 0 && old(count) + Sum(rivals) < limit ==> ok
      ensures limit <= 0 ==> ok
    {
      others := 0;
      var i := 0;
      assert rivals[..0] == [];
      while true
        invariant Valid() && 0 <= i <= |rivals| && others <= Sum(rivals[..i])
        invariant count == old(count) + others && denied == old(denied)
        invariant limit > 0 && old(count) == limit ==> others == 0
        decreases |rivals| - i
      {
        SumPrefix(rivals, i);
        var n := count;
        if limit > 0 && n >= limit {
          denied := denied + 1;
          return false, others;
        }
        if i < |rivals| {
          var taken := Interfere(rivals[i]);
          others := others + taken;
          assert rivals[..i + 1][..i] == rivals[..i];
          SumPrefix(rivals, i + 1);
        }
        if count == n {
          count := n + 1;
          return true, others;
        }
        i := i + 1;
      }
    }

    lemma {:induction false} SumPrefix(ns: seq<nat>, i: nat)
      requires i <= |ns|
      ensures Sum(ns[..i]) <= Sum(ns)
      decreases |ns| - i
    {
      if i < |ns| {
        SumPrefix(ns, i + 1);
        assert ns[..i + 1][..i] == ns[..i];
      } else {
        assert ns[..i] == ns;
      }
    }
  }
}
