/**
 * The path-scoped candidate scheduler of pkg/scanner/adaptive.go.
 *
 * The first half describes the scheduler's state as a value and says what one decision does to it;
 * the second half is the scheduler object itself, whose methods are proved to take exactly those
 * decisions. The dispatcher (module Dispatcher) reasons about the values.
 */
module PathScheduler {
  import opened Grouping
  import opened Prelude

  type PathId = string

  /** The scheduler's state, without the shared set of proven paths. */
  datatype Schedule = Schedule(
    order: seq<PathId>,
    pending: map<PathId, seq<nat>>,
    inflight: map<PathId, nat>,
    dispatched: map<PathId, nat>,
    cap: int,
    cursor: nat)
  {
    /** The shape every scheduler has from construction on. */
    ghost predicate WellFormed() {
      && Distinct(order)
      && pending.Keys == Elements(order)
      && inflight.Keys <= pending.Keys
      && dispatched.Keys <= pending.Keys
      && (order != [] ==> cursor < |order|)
    }

    /** The path `i` places past the cursor. */
    function At(i: nat): PathId
      requires i < |order|
    {
      order[(cursor + i) % |order|]
    }

    /** May the next candidate of `p` be handed out, given the proven paths and the index bound? */
    predicate Eligible(proven: set<PathId>, limit: int, p: PathId) {
      && p !in proven
      && p in pending && pending[p] != []
      && !(cap > 0 && Count(inflight, p) >= cap)
      && !(limit >= 0 && pending[p][0] >= limit)
    }

    /** `i` is the first place past the cursor whose path is eligible. */
    predicate Picks(proven: set<PathId>, limit: int, i: nat) {
      && i < |order|
      && Eligible(proven, limit, At(i))
      && forall j: nat :: j < i ==> !Eligible(proven, limit, At(j))
    }

    /** No path of the rotation is eligible. */
    predicate Idle(proven: set<PathId>, limit: int) {
      forall i: nat :: i < |order| ==> !Eligible(proven, limit, At(i))
    }

    /** The state after the path `i` places past the cursor has been served. */
    function Serve(i: nat): Schedule
      requires i < |order| && At(i) in pending && pending[At(i)] != []
    {
      var p := At(i);
      this.(
        pending := pending[p := pending[p][1..]],
        inflight := inflight[p := Count(inflight, p) + 1],
        dispatched := dispatched[p := Count(dispatched, p) + 1],
        cursor := ((cursor + i) % |order| + 1) % |order|)
    }

    /** The state after one in-flight candidate of `p` has been released. */
    function Done(p: PathId): Schedule {
      if p in inflight && inflight[p] > 0 then this.(inflight := inflight[p := inflight[p] - 1]) else this
    }

    /** Every candidate is handed out or belongs to a proven path. */
    predicate Exhausted(proven: set<PathId>) {
      forall p :: p in pending && pending[p] != [] ==> p in proven
    }

    /** How far `p` is ahead of the cursor, going round the rotation. */
    ghost function Distance(p: PathId): (d: nat)
      requires WellFormed() && p in order
      ensures d < |order| && At(d) == p
    {
      var q :| 0 <= q < |order| && order[q] == p;
      var d := if q >= cursor then q - cursor else q + |order| - cursor;
      RingIndex(cursor + d, |order|);
      d
    }
  }

  /** A remainder is determined by any quotient that leaves it in range. */
  lemma ModUnique(x: nat, n: nat, k: nat, r: nat)
    requires n > 0 && r < n && x == k * n + r
    ensures x % n == r
  {
    var k' := x / n;
    if k' > k {
      MulStep(k, k', n);
    } else if k' < k {
      MulStep(k', k, n);
    }
  }

  /** One more factor adds at least one more summand. */
  lemma MulStep(k: nat, k': nat, n: nat)
    requires k < k'
    ensures k' * n >= k * n + n
  {
    assert k' * n == (k + 1) * n + (k' - k - 1) * n;
  }

  /** Going round a ring at most once. */
  lemma RingIndex(x: nat, n: nat)
    requires x < 2 * n
    ensures x % n == if x < n then x else x - n
  {
    if x < n {
      ModUnique(x, n, 0, x);
    } else {
      ModUnique(x, n, 1, x - n);
    }
  }

  // ---------------------------------------------------------------------------------------------
  // Construction
  // ---------------------------------------------------------------------------------------------

  /** Every path of a task list with the positions of its candidates. */
  function Queues(tasks: seq<PathId>): map<PathId, seq<nat>> {
    map p | p in Elements(tasks) :: Positions(tasks, p)
  }

  /** The scheduler's state right after construction over a task list. */
  function Initial(tasks: seq<PathId>, cap: int): Schedule {
    Schedule(FirstSeen(tasks), Queues(tasks), map[], map[], cap, 0)
  }

  /**
   * A new scheduler is well formed and holds every candidate: exactly once in the queue of its own
   * path, in list order, and in no other queue. No path stands in the rotation twice.
   */
  lemma InitialHoldsEveryTask(tasks: seq<PathId>, cap: int)
    ensures Initial(tasks, cap).WellFormed()
    ensures forall i :: 0 <= i < |tasks| ==>
              tasks[i] in Initial(tasks, cap).pending && i in Initial(tasks, cap).pending[tasks[i]]
    ensures forall p, i :: p in Initial(tasks, cap).pending && i in Initial(tasks, cap).pending[p] ==>
              0 <= i < |tasks| && tasks[i] == p
    ensures forall p :: p in Initial(tasks, cap).pending ==> Ascending(Initial(tasks, cap).pending[p])
    ensures Distinct(Initial(tasks, cap).order) && forall p :: p in Initial(tasks, cap).order <==> p in tasks
  {
    var s := Initial(tasks, cap);
    assert s.pending.Keys == Elements(s.order);
    if s.order != [] { assert s.cursor < |s.order|; }
    forall i | 0 <= i < |tasks|
      ensures tasks[i] in s.pending && i in s.pending[tasks[i]]
    {
      assert tasks[i] in Elements(FirstSeen(tasks));
    }
    forall p ensures p in s.order <==> p in tasks {
      SeenMeansPresent(tasks, p);
    }
  }

  /** A scheduler that takes in one more task: its path joins the rotation on first sight. */
  function WithTask(s: Schedule, p: PathId, index: nat): Schedule {
    s.(order := if p in s.pending then s.order else s.order + [p],
       pending := s.pending[p := (if p in s.pending then s.pending[p] else []) + [index]])
  }

  /** Building a scheduler task by task gives the one built at once. */
  lemma AddTask(tasks: seq<PathId>, p: PathId, cap: int)
    ensures Initial(tasks + [p], cap) == WithTask(Initial(tasks, cap), p, |tasks|)
  {
    assert p in FirstSeen(tasks) <==> p in Elements(FirstSeen(tasks));
    assert (tasks + [p])[..|tasks + [p]| - 1] == tasks;
    AddPositions(tasks, p);
  }

  lemma AddPositions(tasks: seq<PathId>, p: PathId)
    ensures Queues(tasks + [p]) == Queues(tasks)[p := Positions(tasks, p) + [|tasks|]]
    ensures p !in tasks ==> Positions(tasks, p) == []
  {
    hide Positions;
    var all := tasks + [p];
    var before, after := Queues(tasks), Queues(all);
    var updated := before[p := Positions(tasks, p) + [|tasks|]];
    QueueKeys(tasks, p);
    forall q | q in after ensures after[q] == updated[q] {
      PositionsOfAppend(tasks, p, q);
    }
    if p !in tasks {
      NoPositions(tasks, p);
    }
  }

  lemma QueueKeys(tasks: seq<PathId>, p: PathId)
    ensures Queues(tasks + [p]).Keys == Queues(tasks).Keys + {p}
  {
    hide Positions;
    assert Elements(tasks + [p]) == Elements(tasks) + {p};
  }

  // ---------------------------------------------------------------------------------------------
  // Decisions
  // ---------------------------------------------------------------------------------------------

  /** The rotation decides: either one place is picked or no path at all is eligible, never both. */
  lemma {:induction false} PickOrIdle(s: Schedule, proven: set<PathId>, limit: int, i: nat := 0)
    requires s.WellFormed() && i <= |s.order|
    requires forall j: nat :: j < i ==> !s.Eligible(proven, limit, s.At(j))
    ensures s.Idle(proven, limit) || exists k :: s.Picks(proven, limit, k)
    ensures !(s.Idle(proven, limit) && exists k :: s.Picks(proven, limit, k))
    decreases |s.order| - i
  {
    if i < |s.order| {
      if s.Eligible(proven, limit, s.At(i)) {
        assert s.Picks(proven, limit, i);
      } else {
        PickOrIdle(s, proven, limit, i + 1);
      }
    }
  }

  /** No two places are picked. */
  lemma PickIsUnique(s: Schedule, proven: set<PathId>, limit: int, i: nat, j: nat)
    requires s.Picks(proven, limit, i) && s.Picks(proven, limit, j)
    ensures i == j
  {
  }

  /** The rotation passes over every path: idle means that no path at all is eligible. */
  lemma IdleMeansNothingEligible(s: Schedule, proven: set<PathId>, limit: int)
    requires s.WellFormed()
    ensures s.Idle(proven, limit) <==> forall p :: !s.Eligible(proven, limit, p)
  {
    if s.Idle(proven, limit) {
      forall p ensures !s.Eligible(proven, limit, p) {
        if p in s.pending {
          assert p in Elements(s.order);
          assert !s.Eligible(proven, limit, s.At(s.Distance(p)));
        }
      }
    }
  }

  /**
   * The shared set of proven paths is read path by path while other goroutines may add to it. With
   * `seen[i]` the set as it was when place `i` was examined, the scan still decides as if the set
   * had been read once, at the moment of the last examination.
   */
  lemma ScanAgainstGrowingProofs(s: Schedule, seen: seq<set<PathId>>, limit: int, i: nat)
    requires i < |seen| && i < |s.order|
    requires forall j, k :: 0 <= j <= k < |seen| ==> seen[j] <= seen[k]
    requires s.Eligible(seen[i], limit, s.At(i))
    requires forall j: nat :: j < i ==> !s.Eligible(seen[j], limit, s.At(j))
    ensures s.Picks(seen[i], limit, i)
  {
    forall j: nat | j < i ensures !s.Eligible(seen[i], limit, s.At(j)) {
      assert seen[j] <= seen[i];
    }
  }

  /** A scan that finds no place eligible when it reads it decides as if read once, at the end. */
  lemma IdleScanAgainstGrowingProofs(s: Schedule, seen: seq<set<PathId>>, limit: int)
    requires |seen| == |s.order| > 0
    requires forall j, k :: 0 <= j <= k < |seen| ==> seen[j] <= seen[k]
    requires forall j: nat :: j < |s.order| ==> !s.Eligible(seen[j], limit, s.At(j))
    ensures s.Idle(seen[|seen| - 1], limit)
  {
    var n := |seen| - 1;
    forall j: nat | j < |s.order| ensures !s.Eligible(seen[n], limit, s.At(j)) {
      assert seen[j] <= seen[n];
    }
  }

  /**
   * Whether every candidate is handed out or settled is read path by path as well, in any order.
   * The answer is yes only if it is yes for the last set read, and no only if it is no for the set
   * read last before the answer.
   */
  lemma ExhaustedAgainstGrowingProofs(s: Schedule, visited: seq<PathId>, seen: seq<set<PathId>>)
    requires |visited| == |seen| > 0
    requires forall j, k :: 0 <= j <= k < |seen| ==> seen[j] <= seen[k]
    requires forall j :: 0 <= j < |seen| - 1 ==> Settled(s, seen[j], visited[j])
    ensures Settled(s, seen[|seen| - 1], visited[|seen| - 1]) && Elements(visited) == s.pending.Keys ==>
              s.Exhausted(seen[|seen| - 1])
    ensures !Settled(s, seen[|seen| - 1], visited[|seen| - 1]) ==> !s.Exhausted(seen[|seen| - 1])
  {
    var n := |seen| - 1;
    if Settled(s, seen[n], visited[n]) && Elements(visited) == s.pending.Keys {
      forall p | p in s.pending && s.pending[p] != [] ensures p in seen[n] {
        assert p in Elements(visited);
        var j :| 0 <= j < |visited| && visited[j] == p;
        assert seen[j] <= seen[n] && Settled(s, seen[j], p);
      }
    }
  }

  /** Nothing is left of a path, or it is proven. */
  predicate Settled(s: Schedule, proven: set<PathId>, p: PathId) {
    p in s.pending && s.pending[p] != [] ==> p in proven
  }

  /**
   * Fairness of one hand-out: a path that was passed over for another one is strictly closer to the
   * cursor afterwards, so a path that stays eligible is served within |order| hand-outs.
   */
  lemma ServingBringsOthersCloser(s: Schedule, proven: set<PathId>, limit: int, i: nat, p: PathId)
    requires s.WellFormed() && s.Picks(proven, limit, i)
    requires s.Eligible(proven, limit, p) && s.At(i) != p
    ensures p in s.order && s.Serve(i).WellFormed() && s.Serve(i).order == s.order
    ensures s.Serve(i).Distance(p) < s.Distance(p)
  {
    assert p in Elements(s.order);
    var n := |s.order|;
    var d := s.Distance(p);
    assert d > i;
    var s' := s.Serve(i);
    ServeKeepsShape(s, i);
    var e := d - i - 1;
    RingIndex(s.cursor + i, n);
    RingIndex((s.cursor + i) % n + 1, n);
    RingIndex(s.cursor + d, n);
    RingIndex(s'.cursor + e, n);
    assert s'.At(e) == p;
    DistanceIsUnique(s', p, e);
  }

  /** Serving keeps the rotation and the shape of the state. */
  lemma ServeKeepsShape(s: Schedule, i: nat)
    requires s.WellFormed()
    requires i < |s.order| && s.At(i) in s.pending && s.pending[s.At(i)] != []
    ensures s.Serve(i).WellFormed() && s.Serve(i).order == s.order
  {
    RingIndex(s.cursor + i, |s.order|);
    RingIndex((s.cursor + i) % |s.order| + 1, |s.order|);
  }

  /** Only one place past the cursor holds a given path. */
  lemma DistanceIsUnique(s: Schedule, p: PathId, e: nat)
    requires s.WellFormed() && e < |s.order| && s.At(e) == p
    ensures p in s.order && s.Distance(p) == e
  {
    RingIndex(s.cursor + s.Distance(p), |s.order|);
    RingIndex(s.cursor + e, |s.order|);
  }

  // ---------------------------------------------------------------------------------------------
  // Totals over the paths of the rotation
  // ---------------------------------------------------------------------------------------------

  /** The sum of `m` over those paths of `order` that lie in `among`. */
  function Sum(order: seq<PathId>, m: map<PathId, nat>, among: set<PathId>): nat {
    if order == [] then 0
    else Sum(order[1..], m, among) + if order[0] in among then Count(m, order[0]) else 0
  }

  /** Taking in one more path adds its number, wherever in the order it stands. */
  lemma {:induction false} SumInsert(order: seq<PathId>, m: map<PathId, nat>, among: set<PathId>, p: PathId)
    requires Distinct(order) && p !in among
    ensures Sum(order, m, among + {p}) == Sum(order, m, among) + if p in order then Count(m, p) else 0
  {
    if order != [] {
      assert Distinct(order[1..]);
      SumInsert(order[1..], m, among, p);
      assert p in order <==> p == order[0] || p in order[1..];
    }
  }

  /** A sum over no path is zero. */
  lemma {:induction false} SumEmpty(order: seq<PathId>, m: map<PathId, nat>)
    ensures Sum(order, m, {}) == 0
  {
    if order != [] {
      SumEmpty(order[1..], m);
    }
  }

  /** A sum is zero exactly when every summand is. */
  lemma {:induction false} SumZero(order: seq<PathId>, m: map<PathId, nat>, among: set<PathId>)
    ensures Sum(order, m, among) == 0 <==> forall p :: p in order && p in among ==> Count(m, p) == 0
  {
    if order != [] {
      SumZero(order[1..], m, among);
      assert forall p :: p in order <==> p == order[0] || p in order[1..];
    }
  }

  /** The number of candidates waiting on each path. */
  function QueueLengths(pending: map<PathId, seq<nat>>): map<PathId, nat> {
    map p | p in pending :: |pending[p]|
  }

  // ---------------------------------------------------------------------------------------------
  // The scheduler object
  // ---------------------------------------------------------------------------------------------

  /** The set of proven paths shared between the dispatcher and the workers. */
  class PathSet {
    var paths: set<PathId>

    constructor ()
      ensures paths == {}
    {
      paths := {};
    }

    /** Records a proof. The empty path is no path and is ignored. Nothing is ever removed. */
    method Add(p: PathId)
      modifies this
      ensures paths == old(paths) + if p == "" then {} else {p}
    {
      if p == "" {
        return;
      }
      paths := paths + {p};
    }
  }

  class Scheduler {
    var order: seq<PathId>
    var pending: map<PathId, seq<nat>>
    var inflight: map<PathId, nat>
    var dispatched: map<PathId, nat>
    var maxPerPath: int
    var cursor: nat
    const proven: PathSet?

    /** The state as a value. */
    ghost function State(): Schedule
      reads this
    {
      Schedule(order, pending, inflight, dispatched, maxPerPath, cursor)
    }

    ghost predicate Valid()
      reads this
    {
      State().WellFormed()
    }

    /** The paths settled so far; a scheduler without a proof set has none. */
    ghost function ProvenPaths(): set<PathId>
      reads this, proven
    {
      if proven == null then {} else proven.paths
    }

    constructor Empty(cap: int, shared: PathSet?)
      ensures State() == Initial([], cap) && proven == shared
    {
      order, pending, inflight, dispatched, maxPerPath, cursor := [], map[], map[], map[], cap, 0;
      proven := shared;
    }

    /**
     * Builds a scheduler over the paths of a task list, or reports the first task that carries no
     * path.
     */
    static method Create(tasks: seq<PathId>, cap: int, shared: PathSet?) returns (r: Result<Scheduler, nat>)
      ensures r.Ok? <==> "" !in tasks
      ensures r.Ok? ==> fresh(r.value) && r.value.Valid() && r.value.State() == Initial(tasks, cap)
                        && r.value.proven == shared
      ensures r.Err? ==> r.error < |tasks| && tasks[r.error] == "" && "" !in tasks[..r.error]
    {
      var s := new Scheduler.Empty(cap, shared);
      for i := 0 to |tasks|
        invariant "" !in tasks[..i]
        invariant fresh(s) && s.proven == shared
        invariant s.State() == Initial(tasks[..i], cap)
      {
        if tasks[i] == "" {
          return Err(i);
        }
        assert tasks[..i + 1] == tasks[..i] + [tasks[i]];
        s.Append(tasks[i], i);
        AddTask(tasks[..i], tasks[i], cap);
      }
      assert tasks[..|tasks|] == tasks;
      InitialHoldsEveryTask(tasks, cap);
      return Ok(s);
    }

    /** Takes in one more task. */
    method Append(p: PathId, index: nat)
      modifies this
      ensures State() == WithTask(old(State()), p, index)
    {
      if p !in pending {
        order := order + [p];
      }
      pending := pending[p := (if p in pending then pending[p] else []) + [index]];
    }

    /**
     * Hands out the next candidate whose index is below `limit` (any candidate when `limit` is
     * negative): the first one, in rotation order from the cursor, whose path is neither proven,
     * nor finished, nor at its in-flight bound. Nothing changes when there is none. `place` tells
     * how far past the cursor the path was found.
     */
    method NextBounded(limit: int) returns (r: Option<(PathId, nat)>, ghost place: nat)
      requires Valid()
      modifies this
      ensures Valid()
      ensures r.None? ==> State() == old(State()) && State().Idle(ProvenPaths(), limit)
      ensures r.Some? ==> old(State()).Picks(ProvenPaths(), limit, place)
      ensures r.Some? ==> State() == old(State()).Serve(place)
      ensures r.Some? ==> r.value == old((State().At(place), pending[State().At(place)][0]))
    {
      place := 0;
      if |order| == 0 {
        return None, place;
      }
      var n := |order|;
      for i := 0 to n
        invariant State() == old(State())
        invariant forall j: nat :: j < i ==> !State().Eligible(ProvenPaths(), limit, State().At(j))
      {
        var id := order[(cursor + i) % n];
        assert id in Elements(order);
        place := i;
        if proven != null && id in proven.paths {
          continue;
        }
        var queue := pending[id];
        if |queue| == 0 {
          continue;
        }
        if maxPerPath > 0 && Count(inflight, id) >= maxPerPath {
          continue;
        }
        if limit >= 0 && queue[0] >= limit {
          continue;
        }
        assert State().Picks(ProvenPaths(), limit, i);
        ServeKeepsShape(State(), i);
        Take(i, id);
        return Some((id, queue[0])), i;
      }
      return None, place;
    }

    /** The bookkeeping of one hand-out: the path `i` places past the cursor is served. */
    method Take(i: nat, id: PathId)
      requires Valid() && i < |order| && State().At(i) == id && id in pending && pending[id] != []
      modifies this
      ensures State() == old(State()).Serve(i)
    {
      var pos := (cursor + i) % |order|;
      pending := pending[id := pending[id][1..]];
      inflight := inflight[id := Count(inflight, id) + 1];
      dispatched := dispatched[id := Count(dispatched, id) + 1];
      cursor := (pos + 1) % |order|;
    }

    /** Releases one in-flight slot of a path; unknown paths and empty counters are left alone. */
    method Done(id: PathId)
      requires Valid()
      modifies this
      ensures Valid() && State() == old(State()).Done(id)
    {
      if id !in inflight {
        return;
      }
      if inflight[id] > 0 {
        inflight := inflight[id := inflight[id] - 1];
      }
    }

    /** Is every candidate handed out or dropped because its path is proven? */
    method IsExhausted() returns (r: bool)
      requires Valid()
      ensures r == State().Exhausted(ProvenPaths())
    {
      var todo := pending.Keys;
      while todo != {}
        invariant todo <= pending.Keys
        invariant forall p :: p in pending.Keys - todo && pending[p] != [] ==> p in ProvenPaths()
      {
        var id :| id in todo;
        if |pending[id]| > 0 && !(proven != null && id in proven.paths) {
          return false;
        }
        todo := todo - {id};
      }
      return true;
    }

    /** The candidates handed out and not released yet, over all paths, in any order of visiting. */
    method InFlightTotal() returns (total: nat)
      requires Valid()
      ensures total == Sum(order, inflight, Elements(order))
    {
      total := 0;
      var todo := inflight.Keys;
      SumEmpty(order, inflight);
      assert inflight.Keys - todo == {};
      while todo != {}
        invariant todo <= inflight.Keys
        invariant total == Sum(order, inflight, inflight.Keys - todo)
      {
        var id :| id in todo;
        SumInsert(order, inflight, inflight.Keys - todo, id);
        assert inflight.Keys - (todo - {id}) == (inflight.Keys - todo) + {id};
        assert id in Elements(order);
        total := total + inflight[id];
        todo := todo - {id};
      }
      assert inflight.Keys - todo == inflight.Keys;
      SumOutside(order, inflight, inflight.Keys, Elements(order));
    }

    /** The candidates a proven path never had to send, over all paths, in any order of visiting. */
    method SkippedByProof() returns (total: nat)
      requires Valid()
      ensures total == Sum(order, QueueLengths(pending), ProvenPaths())
    {
      total := 0;
      var todo := pending.Keys;
      ghost var seen: set<PathId> := {};
      SumEmpty(order, QueueLengths(pending));
      while todo != {}
        invariant todo <= pending.Keys
        invariant seen == (pending.Keys - todo) * ProvenPaths()
        invariant total == Sum(order, QueueLengths(pending), seen)
      {
        var id :| id in todo;
        if proven != null && id in proven.paths {
          SumInsert(order, QueueLengths(pending), seen, id);
          assert id in Elements(order);
          total := total + |pending[id]|;
          seen := seen + {id};
        }
        todo := todo - {id};
      }
      SumOutside(order, QueueLengths(pending), seen, ProvenPaths());
    }
  }

  /** Only the paths of the order that have a number matter to a sum. */
  lemma {:induction false} SumOutside(order: seq<PathId>, m: map<PathId, nat>, a: set<PathId>, b: set<PathId>)
    requires forall p :: p in order && p in m ==> (p in a <==> p in b)
    ensures Sum(order, m, a) == Sum(order, m, b)
  {
    if order != [] {
      SumOutside(order[1..], m, a, b);
    }
  }
}
