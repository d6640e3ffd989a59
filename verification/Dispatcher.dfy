/**
 * The dispatcher goroutine of pkg/scanner/adaptive.go together with the producer, the workers and
 * the relays of pkg/scanner/engine.go, as a labelled transition system. Every label is one
 * synchronisation of one goroutine; a run is any sequence of labels whose steps are possible.
 */
module Dispatcher {
  import opened Grouping
  import opened Prelude
  import opened PathScheduler

  /**
   * One adaptive scan: the path of every candidate, the paths a proof may settle, the in-flight
   * bound per path, the capacities of the two channels and the number of workers.
   */
  datatype Config = Config(
    tasks: seq<PathId>, convergent: set<PathId>, cap: int, inCap: nat, outCap: nat, workers: nat)
  {
    ghost predicate Valid() {
      "" !in tasks && inCap > 0 && outCap > 0 && workers > 0
    }
  }

  /** The capacity of the channel on which finished paths return to the dispatcher. */
  const RELEASE_BUFFER: nat := 64

  /** How far one candidate has come. */
  datatype Stage =
    | Waiting     // not handed out by the scheduler
    | Held        // handed out, the dispatcher is offering it to the workers
    | Queued      // in the worker channel
    | Running     // a worker is attempting it
    | Proved      // its worker has published a proof for its path
    | Closed      // its worker has closed the done channel
    | Releasing   // its relay has put the path on the release channel
    | Released    // the dispatcher has freed the slot

  /** Where the dispatcher goroutine stands. */
  datatype Pc =
    | Drain               // accepting every item that is already available
    | Choose(sent: bool)  // asking the scheduler for work; `sent`: something went out this round
    | Offer(item: nat)    // blocked on the worker channel
    | Wait                // blocked on the three-way select
    | Closing             // returned from the loop, waiting for the relays
    | Exited

  datatype Label =
    | Produce | CloseInput                    // producer
    | Receive | SeeClosed | NothingToDrain    // dispatcher, input side
    | TakeRelease | Pick(place: nat) | NothingToPick | Hand | Abort | Exit
    | Start | Prove(item: nat) | Finish(item: nat)   // workers
    | Relay(item: nat) | RelayQuit(item: nat)        // relays
    | Cancel

  datatype State = State(
    produced: nat,          // items the producer has sent
    input: seq<nat>,        // the channel from the producer
    inputClosed: bool,
    inputNil: bool,         // the dispatcher has seen the channel closed
    pc: Pc,
    queue: seq<nat>,        // the dispatcher's local list of received items
    sched: Schedule,
    out: seq<nat>,          // the channel to the workers
    workers: nat,           // workers that have not returned
    stage: seq<Stage>,
    relays: set<nat>,       // items whose relay goroutine is alive
    release: seq<nat>,      // the release channel
    proven: set<PathId>,
    cancelled: bool,
    handed: seq<nat>)       // every item ever sent to the workers, in order

  /** Items a worker is busy with. */
  function Busy(stage: seq<Stage>): set<nat> {
    set i: nat | i < |stage| && (stage[i] == Running || stage[i] == Proved)
  }

  /** Has the item been handed out and not been released? */
  predicate InFlight(g: Stage) {
    g != Waiting && g != Released
  }

  /** The items of one path that are in flight. */
  function Active(tasks: seq<PathId>, stage: seq<Stage>, p: PathId): set<nat> {
    set i: nat | i < |stage| && i < |tasks| && tasks[i] == p && InFlight(stage[i])
  }

  function Init(c: Config): State {
    State(0, [], false, false, Drain, [], Initial(c.tasks, c.cap), [], c.workers,
          seq(|c.tasks|, _ => Waiting), {}, [], {}, false, [])
  }

  /** The scheduler is finished, no input is left and no slot is taken: the dispatcher returns. */
  predicate Finished(s: State) {
    && s.sched.Exhausted(s.proven)
    && s.inputNil
    && Sum(s.sched.order, s.sched.inflight, Elements(s.sched.order)) == 0
  }

  /** One step. The bounds on indices are not tests of the program: it would panic without them. */
  ghost predicate Step(c: Config, s: State, l: Label, s': State) {
    match l
    case Produce =>
      && !s.inputClosed && s.produced < |c.tasks| && |s.input| < c.inCap
      && s' == s.(produced := s.produced + 1, input := s.input + [s.produced])
    case CloseInput =>
      && !s.inputClosed && (s.produced == |c.tasks| || s.cancelled)
      && s' == s.(inputClosed := true)
    case Receive =>
      && (s.pc == Drain || s.pc == Wait) && !s.inputNil && s.input != []
      && s' == s.(input := s.input[1..], queue := s.queue + [s.input[0]], pc := Drain)
    case SeeClosed =>
      && (s.pc == Drain || s.pc == Wait) && !s.inputNil && s.input == [] && s.inputClosed
      && s' == s.(inputNil := true, pc := if s.pc == Drain then Choose(false) else Drain)
    case NothingToDrain =>
      && s.pc == Drain && (s.inputNil || (s.input == [] && !s.inputClosed))
      && s' == s.(pc := Choose(false))
    case TakeRelease =>
      && (s.pc.Choose? || s.pc == Wait) && s.release != []
      && s.release[0] < |s.stage| && s.release[0] < |c.tasks|
      && s' == s.(release := s.release[1..],
                  sched := s.sched.Done(c.tasks[s.release[0]]),
                  stage := s.stage[s.release[0] := Released],
                  pc := if s.pc == Wait then Drain else s.pc)
    case Pick(k) =>
      && s.pc.Choose? && s.release == []
      && s.sched.Picks(s.proven, |s.queue|, k)
      && var index := s.sched.pending[s.sched.At(k)][0];
      && index < |s.queue| && s.queue[index] < |s.stage|
      && s' == s.(sched := s.sched.Serve(k),
                  stage := s.stage[s.queue[index] := Held],
                  pc := Offer(s.queue[index]))
    case NothingToPick =>
      && s.pc.Choose? && s.release == []
      && s.sched.Idle(s.proven, |s.queue|)
      && s' == s.(pc := if s.pc.sent then Drain else if Finished(s) then Closing else Wait)
    case Hand =>
      && s.pc.Offer? && |s.out| < c.outCap && s.pc.item < |s.stage|
      && s' == s.(out := s.out + [s.pc.item],
                  handed := s.handed + [s.pc.item],
                  relays := s.relays + {s.pc.item},
                  stage := s.stage[s.pc.item := Queued],
                  pc := Choose(true))
    case Abort =>
      && s.cancelled && (s.pc.Offer? || s.pc == Wait)
      && s' == s.(pc := Closing)
    case Exit =>
      && s.pc == Closing && s.relays == {}
      && s' == s.(pc := Exited)
    case Start =>
      && s.out != [] && |Busy(s.stage)| < s.workers && s.out[0] < |s.stage|
      && s' == if s.cancelled
               then s.(out := s.out[1..], stage := s.stage[s.out[0] := Closed], workers := s.workers - 1)
               else s.(out := s.out[1..], stage := s.stage[s.out[0] := Running])
    case Prove(i) =>
      && i < |s.stage| && i < |c.tasks| && s.stage[i] == Running && c.tasks[i] in c.convergent
      && s' == s.(stage := s.stage[i := Proved], proven := s.proven + {c.tasks[i]})
    case Finish(i) =>
      && i < |s.stage| && (s.stage[i] == Running || s.stage[i] == Proved)
      && s' == s.(stage := s.stage[i := Closed])
    case Relay(i) =>
      && i in s.relays && i < |s.stage| && s.stage[i] == Closed && |s.release| < RELEASE_BUFFER
      && s' == s.(relays := s.relays - {i}, release := s.release + [i], stage := s.stage[i := Releasing])
    case RelayQuit(i) =>
      && i in s.relays && s.cancelled
      && s' == s.(relays := s.relays - {i})
    case Cancel =>
      && !s.cancelled
      && s' == s.(cancelled := true)
  }

  /** `trace` is a run from its first to its last state whose steps carry `labels`. */
  ghost predicate Run(c: Config, trace: seq<State>, labels: seq<Label>) {
    && |trace| == |labels| + 1
    && forall k :: 0 <= k < |labels| ==> Step(c, trace[k], labels[k], trace[k + 1])
  }

  // ---------------------------------------------------------------------------------------------
  // Invariants
  // ---------------------------------------------------------------------------------------------

  /** Items travel in slice order, so the dispatcher's list position of an item is its index. */
  ghost predicate InputInv(c: Config, s: State) {
    && |s.stage| == |c.tasks|
    && s.produced <= |c.tasks|
    && s.queue + s.input == Range(0, s.produced)
    && (s.inputNil ==> s.inputClosed && s.input == [])
    && (s.inputClosed && !s.cancelled ==> s.produced == |c.tasks|)
  }

  /** The worker channel holds exactly the queued items, once. */
  ghost predicate OutInv(s: State) {
    Distinct(s.out) && forall i :: i in s.out <==> 0 <= i < |s.stage| && s.stage[i] == Queued
  }

  /** The release channel holds exactly the items being released, once. */
  ghost predicate ReleaseInv(s: State) {
    Distinct(s.release) && forall i :: i in s.release <==> 0 <= i < |s.stage| && s.stage[i] == Releasing
  }

  /** Has the item left the dispatcher? */
  predicate Sent(g: Stage) {
    g != Waiting && g != Held
  }

  /** The history names exactly the items that were sent, once. */
  ghost predicate HandedInv(s: State) {
    Distinct(s.handed) && forall i :: i in s.handed <==> 0 <= i < |s.stage| && Sent(s.stage[i])
  }

  /** Stages a relay goroutine watches. */
  predicate Watched(g: Stage) {
    g == Queued || g == Running || g == Proved || g == Closed
  }

  /** Every handed-out item that is not forwarded has a relay, unless the scan was cancelled. */
  ghost predicate RelayInv(s: State) {
    && (forall i :: i in s.relays ==> i < |s.stage| && Watched(s.stage[i]))
    && (!s.cancelled ==> forall i: nat :: i < |s.stage| && Watched(s.stage[i]) ==> i in s.relays)
  }

  /** Only the item being offered is held; an abandoned offer stays held. */
  ghost predicate OfferInv(s: State) {
    && (s.pc.Offer? ==> s.pc.item < |s.stage| && s.stage[s.pc.item] == Held)
    && (forall i: nat :: i < |s.stage| && s.stage[i] == Held ==>
          s.pc == Offer(i) || (s.cancelled && (s.pc == Closing || s.pc == Exited)))
  }

  /** `q` lists exactly the waiting items of path `p`, in order. */
  ghost predicate ListsWaiting(tasks: seq<PathId>, stage: seq<Stage>, p: PathId, q: seq<nat>) {
    && |stage| == |tasks|
    && Ascending(q)
    && forall i :: i in q <==> 0 <= i < |tasks| && tasks[i] == p && stage[i] == Waiting
  }

  /** The scheduler's queues hold exactly the waiting items, in order. */
  ghost predicate QueueInv(tasks: seq<PathId>, stage: seq<Stage>, sched: Schedule) {
    && |stage| == |tasks|
    && sched.WellFormed() && sched.order == FirstSeen(tasks)
    && forall p :: p in sched.pending ==> ListsWaiting(tasks, stage, p, sched.pending[p])
  }

  /** The scheduler counts the slots exactly and never exceeds its bound. */
  ghost predicate SlotInv(tasks: seq<PathId>, stage: seq<Stage>, sched: Schedule) {
    forall p :: |Active(tasks, stage, p)| == Count(sched.inflight, p)
        && (sched.cap > 0 ==> |Active(tasks, stage, p)| <= sched.cap)
  }

  /** A path's items leave the scheduler in order. */
  ghost predicate OrderInv(tasks: seq<PathId>, stage: seq<Stage>) {
    && |stage| == |tasks|
    && forall i, j :: 0 <= i < j < |tasks| && tasks[i] == tasks[j] && !Sent(stage[i]) ==> stage[j] == Waiting
  }

  /** A path's items reach the workers in order. */
  ghost predicate HistoryInv(tasks: seq<PathId>, handed: seq<nat>) {
    && (forall k :: 0 <= k < |handed| ==> handed[k] < |tasks|)
    && (forall j, k :: 0 <= j < k < |handed| && tasks[handed[j]] == tasks[handed[k]] ==> handed[j] < handed[k])
  }

  /** Is the item chosen but not yet attempted to the end? */
  predicate OnTheWay(g: Stage) {
    g == Held || g == Queued || g == Running
  }

  /** Nothing of a proven path is still on its way to an attempt. */
  ghost predicate ProofInv(tasks: seq<PathId>, stage: seq<Stage>, proven: set<PathId>) {
    && |stage| == |tasks|
    && forall i: nat :: i < |tasks| && tasks[i] in proven ==> !OnTheWay(stage[i])
  }

  ghost predicate WorkerInv(c: Config, s: State) {
    && |Busy(s.stage)| <= s.workers
    && (!s.cancelled ==> s.workers == c.workers)
  }

  /** No candidate is in flight. */
  ghost predicate Quiet(s: State) {
    forall i: nat :: i < |s.stage| ==> !InFlight(s.stage[i])
  }

  /** Why the dispatcher blocks, and what it knows once it has returned. */
  ghost predicate WaitInv(s: State) {
    && (s.pc == Wait ==> s.sched.Idle(s.proven, |s.queue|))
    && (s.pc == Wait && Quiet(s) && s.inputNil ==> !s.sched.Exhausted(s.proven))
    && ((s.pc == Closing || s.pc == Exited) && !s.cancelled ==>
          s.sched.Exhausted(s.proven) && s.inputNil && Quiet(s))
  }

  ghost predicate Inv(c: Config, s: State) {
    && InputInv(c, s) && OutInv(s) && ReleaseInv(s) && HandedInv(s) && RelayInv(s) && OfferInv(s)
    && QueueInv(c.tasks, s.stage, s.sched) && s.sched.cap == c.cap
    && SlotInv(c.tasks, s.stage, s.sched)
    && OrderInv(c.tasks, s.stage) && HistoryInv(c.tasks, s.handed)
    && (c.cap == 1 ==> ProofInv(c.tasks, s.stage, s.proven))
    && WorkerInv(c, s) && WaitInv(s)
    && s.proven <= c.convergent
  }

  lemma InitInv(c: Config)
    requires c.Valid()
    ensures Inv(c, Init(c))
  {
    hide QueueInv; hide Queues; hide FirstSeen;
    var s := Init(c);
    assert s.queue + s.input == Range(0, 0);
    assert Busy(s.stage) == {};
    forall p ensures Active(c.tasks, s.stage, p) == {} {
    }
    InitQueues(c.tasks, c.cap, s.stage);
  }

  lemma InitQueues(tasks: seq<PathId>, cap: int, stage: seq<Stage>)
    requires |stage| == |tasks| && forall i :: 0 <= i < |stage| ==> stage[i] == Waiting
    ensures QueueInv(tasks, stage, Initial(tasks, cap))
  {
    InitialHoldsEveryTask(tasks, cap);
  }

  lemma InputStep(c: Config, s: State, l: Label, s': State)
    requires InputInv(c, s) && Step(c, s, l, s')
    ensures InputInv(c, s')
  {
    match l
    case Receive => assert s.queue + s.input == s'.queue + s'.input;
    case Produce => assert s'.queue + s'.input == (s.queue + s.input) + [s.produced];
    case _ =>
  }

  /** The item at a position of the dispatcher's list is the item of that index. */
  lemma QueueIsAligned(c: Config, s: State, k: nat)
    requires InputInv(c, s) && k < |s.queue|
    ensures s.queue[k] == k < |c.tasks|
  {
    assert (s.queue + s.input)[k] == Range(0, s.produced)[k];
  }

  /** What the scheduler picks is the first waiting item of its path, and the list holds it. */
  lemma PickedItem(c: Config, s: State, k: nat)
    requires InputInv(c, s) && QueueInv(c.tasks, s.stage, s.sched) && s.sched.Picks(s.proven, |s.queue|, k)
    ensures var p := s.sched.At(k); var i := s.sched.pending[p][0];
            && i < |s.queue| && i < |c.tasks| && s.queue[i] == i && c.tasks[i] == p && s.stage[i] == Waiting
            && p !in s.proven
  {
    var p := s.sched.At(k);
    var i := s.sched.pending[p][0];
    assert i in s.sched.pending[p];
    QueueIsAligned(c, s, i);
  }

  /** Does the label move a candidate from one stage to the next? */
  predicate MovesItem(l: Label) {
    l == TakeRelease || l.Pick? || l == Hand || l == Start || l.Prove? || l.Finish? || l.Relay?
  }

  /** One item moves from one stage to another. */
  ghost predicate Moves(s: State, i: nat, from: Stage, to: Stage, s': State) {
    i < |s.stage| && s.stage[i] == from && s'.stage == s.stage[i := to]
  }

  /** Which item a label moves, and between which stages. */
  ghost predicate Moved(s: State, l: Label, s': State) {
    match l
    case TakeRelease => s.release != [] && Moves(s, s.release[0], Releasing, Released, s')
    case Pick(k) => s'.pc.Offer? && Moves(s, s'.pc.item, Waiting, Held, s')
    case Hand => s.pc.Offer? && Moves(s, s.pc.item, Held, Queued, s')
    case Start => s.out != [] && Moves(s, s.out[0], Queued, if s.cancelled then Closed else Running, s')
    case Prove(i) => Moves(s, i, Running, Proved, s')
    case Finish(i) => Moves(s, i, Running, Closed, s') || Moves(s, i, Proved, Closed, s')
    case Relay(i) => Moves(s, i, Closed, Releasing, s')
    case _ => s'.stage == s.stage
  }

  lemma MovesOf(c: Config, s: State, l: Label, s': State)
    requires InputInv(c, s) && OutInv(s) && ReleaseInv(s) && OfferInv(s) && QueueInv(c.tasks, s.stage, s.sched)
             && Step(c, s, l, s')
    ensures Moved(s, l, s')
  {
    if l.Pick? {
      PickedItem(c, s, l.place);
    } else if l == TakeRelease {
      assert s.release[0] in s.release;
    } else if l == Start {
      assert s.out[0] in s.out;
    }
  }

  /** A label that moves no item leaves everything that describes items alone. */
  lemma StayKeepsItems(c: Config, s: State, l: Label, s': State)
    requires !MovesItem(l) && Step(c, s, l, s')
    ensures s'.stage == s.stage && s'.sched == s.sched && s'.out == s.out && s'.release == s.release
    ensures s'.handed == s.handed && s'.proven == s.proven && s'.workers == s.workers
  {
  }

  /** What a step that moves an item does to the channels, the relays and the lists. */
  lemma ListsMove(c: Config, s: State, l: Label, s': State)
    requires MovesItem(l) && Step(c, s, l, s')
    ensures l == Hand ==> s.pc.Offer?
    ensures l == Start ==> s.out != []
    ensures l == TakeRelease ==> s.release != []
    ensures s'.out == if l == Hand then s.out + [s.pc.item] else if l == Start then s.out[1..] else s.out
    ensures s'.handed == if l == Hand then s.handed + [s.pc.item] else s.handed
    ensures s'.release == if l == TakeRelease then s.release[1..] else if l.Relay? then s.release + [l.item]
            else s.release
    ensures s'.relays == if l == Hand then s.relays + {s.pc.item} else if l.Relay? then s.relays - {l.item}
            else s.relays
    ensures s'.cancelled == s.cancelled
    ensures if l.Pick? then s'.pc.Offer? else if l == Hand then s'.pc == Choose(true)
            else s'.pc == s.pc || (l == TakeRelease && s.pc == Wait && s'.pc == Drain)
    ensures l == TakeRelease ==> s.pc.Choose? || s.pc == Wait
    ensures l.Pick? ==> s.pc.Choose?
  {
  }

  lemma OutStep(c: Config, s: State, l: Label, s': State)
    requires OutInv(s) && MovesItem(l) && Moved(s, l, s') && Step(c, s, l, s')
    ensures OutInv(s')
  {
    hide Step;
    ListsMove(c, s, l, s');
    if l == Hand {
      PushDistinct(s.out, s.pc.item);
    } else if l == Start {
      PopDistinct(s.out);
    }
  }

  lemma ReleaseStep(c: Config, s: State, l: Label, s': State)
    requires ReleaseInv(s) && MovesItem(l) && Moved(s, l, s') && Step(c, s, l, s')
    ensures ReleaseInv(s')
  {
    hide Step;
    ListsMove(c, s, l, s');
    if l == TakeRelease {
      PopDistinct(s.release);
    } else if l.Relay? {
      PushDistinct(s.release, l.item);
    }
  }

  lemma HandedStep(c: Config, s: State, l: Label, s': State)
    requires HandedInv(s) && MovesItem(l) && Moved(s, l, s') && Step(c, s, l, s')
    ensures HandedInv(s')
  {
    hide Step;
    ListsMove(c, s, l, s');
    if l == Hand {
      PushDistinct(s.handed, s.pc.item);
    }
  }

  lemma RelayStep(c: Config, s: State, l: Label, s': State)
    requires RelayInv(s) && MovesItem(l) && Moved(s, l, s') && Step(c, s, l, s')
    ensures RelayInv(s')
  {
    hide Step;
    ListsMove(c, s, l, s');
  }

  lemma RelayStay(c: Config, s: State, l: Label, s': State)
    requires RelayInv(s) && !MovesItem(l) && Step(c, s, l, s')
    ensures RelayInv(s')
  {
  }

  lemma OfferStep(c: Config, s: State, l: Label, s': State)
    requires OfferInv(s) && MovesItem(l) && Moved(s, l, s') && Step(c, s, l, s')
    ensures OfferInv(s')
  {
    hide Step;
    ListsMove(c, s, l, s');
  }

  lemma OfferStay(c: Config, s: State, l: Label, s': State)
    requires OfferInv(s) && !MovesItem(l) && Step(c, s, l, s')
    ensures OfferInv(s')
  {
  }

  lemma QueueStep(c: Config, s: State, l: Label, s': State)
    requires InputInv(c, s) && QueueInv(c.tasks, s.stage, s.sched) && MovesItem(l) && Moved(s, l, s')
             && Step(c, s, l, s')
    ensures QueueInv(c.tasks, s'.stage, s'.sched) && s'.sched.cap == s.sched.cap
  {
    if l.Pick? {
      PickedItem(c, s, l.place);
      QueuePick(c.tasks, s.stage, s.sched, l.place);
    } else if l == TakeRelease {
      QueueRelease(c.tasks, s.stage, s.sched, s.release[0]);
    } else {
      OnlyPicksLeaveWaiting(s, l, s');
      QueueKept(c.tasks, s.stage, s.sched, s'.stage);
    }
  }

  lemma QueueKept(tasks: seq<PathId>, stage: seq<Stage>, sched: Schedule, stage': seq<Stage>)
    requires QueueInv(tasks, stage, sched) && |stage'| == |stage|
    requires forall i :: 0 <= i < |stage| ==> (stage'[i] == Waiting <==> stage[i] == Waiting)
    ensures QueueInv(tasks, stage', sched)
  {
  }

  lemma QueueRelease(tasks: seq<PathId>, stage: seq<Stage>, sched: Schedule, i: nat)
    requires QueueInv(tasks, stage, sched) && i < |stage| && stage[i] == Releasing
    ensures QueueInv(tasks, stage[i := Released], sched.Done(tasks[i]))
  {
    QueueKept(tasks, stage, sched, stage[i := Released]);
  }

  lemma QueuePick(tasks: seq<PathId>, stage: seq<Stage>, sched: Schedule, k: nat)
    requires QueueInv(tasks, stage, sched)
    requires k < |sched.order| && sched.At(k) in sched.pending && sched.pending[sched.At(k)] != []
    ensures var i := sched.pending[sched.At(k)][0];
            i < |stage| && QueueInv(tasks, stage[i := Held], sched.Serve(k))
  {
    ServeKeepsShape(sched, k);
    var p := sched.At(k);
    var i := sched.pending[p][0];
    assert i in sched.pending[p];
    AscendingTail(sched.pending[p]);
    var stage', pending' := stage[i := Held], sched.Serve(k).pending;
    assert pending' == sched.pending[p := sched.pending[p][1..]];
    forall q | q in pending' ensures ListsWaiting(tasks, stage', q, pending'[q]) {
      assert ListsWaiting(tasks, stage, q, sched.pending[q]);
    }
  }

  /** Changing one item's stage changes the in-flight set of its own path only. */
  lemma ActiveMove(tasks: seq<PathId>, stage: seq<Stage>, i: nat, to: Stage, q: PathId)
    requires |stage| == |tasks| && i < |stage|
    ensures Active(tasks, stage[i := to], q)
         == if q != tasks[i] then Active(tasks, stage, q)
            else if InFlight(to) then Active(tasks, stage, q) + {i} else Active(tasks, stage, q) - {i}
    ensures i in Active(tasks, stage, tasks[i]) <==> InFlight(stage[i])
  {
  }

  lemma SlotStep(c: Config, s: State, l: Label, s': State)
    requires InputInv(c, s) && QueueInv(c.tasks, s.stage, s.sched) && SlotInv(c.tasks, s.stage, s.sched)
    requires MovesItem(l) && Moved(s, l, s') && Step(c, s, l, s')
    ensures SlotInv(c.tasks, s'.stage, s'.sched)
  {
    match l
    case Pick(k) =>
      PickedItem(c, s, k);
      SlotPick(c.tasks, s.stage, s.sched, s.proven, |s.queue|, k);
    case TakeRelease => SlotRelease(c.tasks, s.stage, s.sched, s.release[0]);
    case Hand => SlotKept(c.tasks, s.stage, s.sched, s.pc.item, Queued);
    case Start => SlotKept(c.tasks, s.stage, s.sched, s.out[0], if s.cancelled then Closed else Running);
    case Prove(i) => SlotKept(c.tasks, s.stage, s.sched, i, Proved);
    case Finish(i) => SlotKept(c.tasks, s.stage, s.sched, i, Closed);
    case Relay(i) => SlotKept(c.tasks, s.stage, s.sched, i, Releasing);
    case _ =>
  }

  lemma SlotKept(tasks: seq<PathId>, stage: seq<Stage>, sched: Schedule, i: nat, to: Stage)
    requires |stage| == |tasks| && i < |stage| && InFlight(stage[i]) && InFlight(to)
    requires SlotInv(tasks, stage, sched)
    ensures SlotInv(tasks, stage[i := to], sched)
  {
    forall q ensures Active(tasks, stage[i := to], q) == Active(tasks, stage, q) {
      ActiveMove(tasks, stage, i, to, q);
      assert q == tasks[i] ==> i in Active(tasks, stage, q);
    }
  }

  lemma SlotPick(tasks: seq<PathId>, stage: seq<Stage>, sched: Schedule, proven: set<PathId>, limit: int, k: nat)
    requires QueueInv(tasks, stage, sched) && SlotInv(tasks, stage, sched) && sched.Picks(proven, limit, k)
    ensures var i := sched.pending[sched.At(k)][0];
            i < |stage| && SlotInv(tasks, stage[i := Held], sched.Serve(k))
  {
    var p := sched.At(k);
    var i := sched.pending[p][0];
    assert i in sched.pending[p];
    var stage' := stage[i := Held];
    forall q
      ensures |Active(tasks, stage', q)| == Count(sched.Serve(k).inflight, q)
      ensures sched.cap > 0 ==> |Active(tasks, stage', q)| <= sched.cap
    {
      ActiveMove(tasks, stage, i, Held, q);
      assert |Active(tasks, stage, q)| == Count(sched.inflight, q);
      if q == p {
        assert i !in Active(tasks, stage, p);
        assert Count(sched.Serve(k).inflight, p) == Count(sched.inflight, p) + 1;
      }
    }
  }

  lemma SlotRelease(tasks: seq<PathId>, stage: seq<Stage>, sched: Schedule, i: nat)
    requires |stage| == |tasks| && i < |stage| && stage[i] == Releasing
    requires SlotInv(tasks, stage, sched)
    ensures SlotInv(tasks, stage[i := Released], sched.Done(tasks[i]))
  {
    var stage' := stage[i := Released];
    forall q
      ensures |Active(tasks, stage', q)| == Count(sched.Done(tasks[i]).inflight, q)
      ensures sched.cap > 0 ==> |Active(tasks, stage', q)| <= sched.cap
    {
      ActiveMove(tasks, stage, i, Released, q);
      assert |Active(tasks, stage, q)| == Count(sched.inflight, q);
      assert q == tasks[i] ==> i in Active(tasks, stage, q);
    }
  }

  lemma OrderStep(c: Config, s: State, l: Label, s': State)
    requires InputInv(c, s) && QueueInv(c.tasks, s.stage, s.sched) && OfferInv(s) && OrderInv(c.tasks, s.stage)
    requires MovesItem(l) && Moved(s, l, s') && Step(c, s, l, s')
    ensures OrderInv(c.tasks, s'.stage)
  {
    if l.Pick? {
      PickedItem(c, s, l.place);
      OrderPick(c.tasks, s.stage, s.sched, l.place);
    } else {
      OnlyPicksLeaveWaiting(s, l, s');
      OrderKept(c.tasks, s.stage, s'.stage);
    }
  }

  lemma OnlyPicksLeaveWaiting(s: State, l: Label, s': State)
    requires MovesItem(l) && !l.Pick? && Moved(s, l, s')
    ensures |s'.stage| == |s.stage|
    ensures forall i :: 0 <= i < |s.stage| ==> (s'.stage[i] == Waiting <==> s.stage[i] == Waiting)
    ensures forall i :: 0 <= i < |s.stage| ==> (Sent(s.stage[i]) ==> Sent(s'.stage[i]))
  {
  }

  lemma OrderKept(tasks: seq<PathId>, stage: seq<Stage>, stage': seq<Stage>)
    requires OrderInv(tasks, stage) && |stage'| == |stage|
    requires forall i :: 0 <= i < |stage| ==> (stage'[i] == Waiting <==> stage[i] == Waiting)
    requires forall i :: 0 <= i < |stage| ==> (Sent(stage[i]) ==> Sent(stage'[i]))
    ensures OrderInv(tasks, stage')
  {
  }

  lemma OrderPick(tasks: seq<PathId>, stage: seq<Stage>, sched: Schedule, k: nat)
    requires QueueInv(tasks, stage, sched) && OrderInv(tasks, stage)
    requires forall j :: 0 <= j < |stage| ==> stage[j] != Held
    requires k < |sched.order| && sched.At(k) in sched.pending && sched.pending[sched.At(k)] != []
    ensures var i := sched.pending[sched.At(k)][0];
            i < |stage| && OrderInv(tasks, stage[i := Held])
  {
    var p := sched.At(k);
    var i := sched.pending[p][0];
    assert i in sched.pending[p];
    forall j | 0 <= j < i && tasks[j] == p ensures Sent(stage[j]) {
      assert j in sched.pending[p] <==> stage[j] == Waiting;
    }
  }

  lemma HistoryStep(c: Config, s: State, l: Label, s': State)
    requires |s.stage| == |c.tasks| && OfferInv(s) && HandedInv(s)
    requires OrderInv(c.tasks, s.stage) && HistoryInv(c.tasks, s.handed)
    requires MovesItem(l) && Moved(s, l, s') && Step(c, s, l, s')
    ensures HistoryInv(c.tasks, s'.handed)
  {
    if l == Hand {
      HistoryHand(c.tasks, s.stage, s.handed, s.pc.item);
    }
  }

  lemma HistoryHand(tasks: seq<PathId>, stage: seq<Stage>, handed: seq<nat>, i: nat)
    requires OrderInv(tasks, stage) && HistoryInv(tasks, handed) && i < |stage| && stage[i] == Held
    requires forall j :: j in handed ==> j < |stage| && Sent(stage[j])
    ensures HistoryInv(tasks, handed + [i])
  {
    forall k | 0 <= k < |handed| && tasks[handed[k]] == tasks[i] ensures handed[k] < i {
      assert handed[k] in handed;
    }
  }

  lemma ProofStep(c: Config, s: State, l: Label, s': State)
    requires InputInv(c, s) && QueueInv(c.tasks, s.stage, s.sched) && SlotInv(c.tasks, s.stage, s.sched)
    requires s.sched.cap == 1 && ProofInv(c.tasks, s.stage, s.proven)
    requires MovesItem(l) && Moved(s, l, s') && Step(c, s, l, s')
    ensures ProofInv(c.tasks, s'.stage, s'.proven)
  {
    if l.Pick? {
      PickedItem(c, s, l.place);
    } else if l.Prove? {
      SoleOccupant(c.tasks, s.stage, s.sched, l.item);
    } else {
      NothingNewOnTheWay(c, s, l, s');
      ProofKept(c.tasks, s.stage, s'.stage, s.proven);
    }
  }

  lemma NothingNewOnTheWay(c: Config, s: State, l: Label, s': State)
    requires MovesItem(l) && !l.Pick? && !l.Prove? && Moved(s, l, s') && Step(c, s, l, s')
    ensures s'.proven == s.proven && |s'.stage| == |s.stage|
    ensures forall i :: 0 <= i < |s.stage| ==> (OnTheWay(s'.stage[i]) ==> OnTheWay(s.stage[i]))
  {
  }

  lemma ProofKept(tasks: seq<PathId>, stage: seq<Stage>, stage': seq<Stage>, proven: set<PathId>)
    requires ProofInv(tasks, stage, proven) && |stage'| == |stage|
    requires forall i :: 0 <= i < |stage| ==> (OnTheWay(stage'[i]) ==> OnTheWay(stage[i]))
    ensures ProofInv(tasks, stage', proven)
  {
  }

  /** With one slot per path, an item in flight is its path's only one. */
  lemma SoleOccupant(tasks: seq<PathId>, stage: seq<Stage>, sched: Schedule, i: nat)
    requires |stage| == |tasks| && SlotInv(tasks, stage, sched) && sched.cap == 1
    requires i < |stage| && InFlight(stage[i])
    ensures forall j: nat :: j < |tasks| && tasks[j] == tasks[i] && j != i ==> !InFlight(stage[j])
  {
    forall j: nat | j < |tasks| && tasks[j] == tasks[i] && j != i ensures !InFlight(stage[j]) {
      assert |Active(tasks, stage, tasks[i])| <= 1;
      if InFlight(stage[j]) {
        SubsetCardinality({i, j}, Active(tasks, stage, tasks[i]));
      }
    }
  }

  lemma BusyMove(stage: seq<Stage>, i: nat, to: Stage)
    requires i < |stage|
    ensures Busy(stage[i := to]) == if to == Running || to == Proved then Busy(stage) + {i} else Busy(stage) - {i}
    ensures i in Busy(stage) <==> stage[i] == Running || stage[i] == Proved
  {
  }

  lemma WorkerStep(c: Config, s: State, l: Label, s': State)
    requires WorkerInv(c, s) && MovesItem(l) && Moved(s, l, s') && Step(c, s, l, s')
    ensures WorkerInv(c, s')
  {
    match l
    case TakeRelease => BusyMove(s.stage, s.release[0], Released);
    case Pick(k) => BusyMove(s.stage, s'.pc.item, Held);
    case Hand => BusyMove(s.stage, s.pc.item, Queued);
    case Start => BusyMove(s.stage, s.out[0], if s.cancelled then Closed else Running);
    case Prove(i) => BusyMove(s.stage, i, Proved);
    case Finish(i) => BusyMove(s.stage, i, Closed);
    case Relay(i) => BusyMove(s.stage, i, Releasing);
    case _ =>
  }

  /** The dispatcher's own summary of the slots tells whether anything is in flight. */
  lemma QuietIsZero(c: Config, s: State)
    requires QueueInv(c.tasks, s.stage, s.sched) && SlotInv(c.tasks, s.stage, s.sched)
    ensures Quiet(s) <==> Sum(s.sched.order, s.sched.inflight, Elements(s.sched.order)) == 0
  {
    SumZero(s.sched.order, s.sched.inflight, Elements(s.sched.order));
    if Quiet(s) {
      forall p ensures Count(s.sched.inflight, p) == 0 {
        assert Active(c.tasks, s.stage, p) == {};
        assert |Active(c.tasks, s.stage, p)| == Count(s.sched.inflight, p);
      }
    } else {
      var i: nat :| i < |s.stage| && InFlight(s.stage[i]);
      assert i in Active(c.tasks, s.stage, c.tasks[i]);
      assert |Active(c.tasks, s.stage, c.tasks[i])| == Count(s.sched.inflight, c.tasks[i]);
      assert c.tasks[i] in Elements(c.tasks);
    }
  }

  lemma WaitStep(c: Config, s: State, l: Label, s': State)
    requires WaitInv(s) && MovesItem(l) && Moved(s, l, s') && Step(c, s, l, s')
    ensures WaitInv(s')
  {
    match l
    case Prove(i) =>
      MoreProofs(s.sched, s.proven, s'.proven, |s.queue|);
      assert InFlight(s.stage[i]) && InFlight(s'.stage[i]);
    case Start => assert InFlight(s.stage[s.out[0]]) && InFlight(s'.stage[s.out[0]]);
    case Finish(i) => assert InFlight(s.stage[i]) && InFlight(s'.stage[i]);
    case Relay(i) => assert InFlight(s.stage[i]) && InFlight(s'.stage[i]);
    case _ =>
  }

  lemma WaitStay(c: Config, s: State, l: Label, s': State)
    requires QueueInv(c.tasks, s.stage, s.sched) && SlotInv(c.tasks, s.stage, s.sched)
    requires OfferInv(s) && WaitInv(s) && !MovesItem(l) && Step(c, s, l, s')
    ensures WaitInv(s')
  {
    if l == NothingToPick {
      QuietIsZero(c, s);
    }
  }

  /** Proofs only ever take paths out of the rotation. */
  lemma MoreProofs(sched: Schedule, proven: set<PathId>, proven': set<PathId>, limit: int)
    requires proven <= proven'
    ensures sched.Idle(proven, limit) ==> sched.Idle(proven', limit)
    ensures sched.Exhausted(proven) ==> sched.Exhausted(proven')
  {
  }

  /** Only paths that may converge are ever proven. */
  lemma ProvenStep(c: Config, s: State, l: Label, s': State)
    requires s.proven <= c.convergent && Step(c, s, l, s')
    ensures s'.proven <= c.convergent
  {
  }

  lemma InvMove(c: Config, s: State, l: Label, s': State)
    requires Inv(c, s) && MovesItem(l) && Step(c, s, l, s')
    ensures Inv(c, s')
  {
    MovesOf(c, s, l, s');
    InputStep(c, s, l, s');
    OutStep(c, s, l, s');
    ReleaseStep(c, s, l, s');
    HandedStep(c, s, l, s');
    RelayStep(c, s, l, s');
    OfferStep(c, s, l, s');
    QueueStep(c, s, l, s');
    SlotStep(c, s, l, s');
    OrderStep(c, s, l, s');
    HistoryStep(c, s, l, s');
    if c.cap == 1 {
      ProofStep(c, s, l, s');
    }
    WorkerStep(c, s, l, s');
    WaitStep(c, s, l, s');
    ProvenStep(c, s, l, s');
  }

  lemma InvStay(c: Config, s: State, l: Label, s': State)
    requires Inv(c, s) && !MovesItem(l) && Step(c, s, l, s')
    ensures Inv(c, s')
  {
    InputStep(c, s, l, s');
    StayKeepsItems(c, s, l, s');
    RelayStay(c, s, l, s');
    OfferStay(c, s, l, s');
    WorkerStay(c, s, l, s');
    WaitStay(c, s, l, s');
  }

  lemma WorkerStay(c: Config, s: State, l: Label, s': State)
    requires WorkerInv(c, s) && !MovesItem(l) && Step(c, s, l, s')
    ensures WorkerInv(c, s')
  {
  }

  /** Every step of every goroutine keeps the invariant. */
  lemma InvStep(c: Config, s: State, l: Label, s': State)
    requires Inv(c, s) && Step(c, s, l, s')
    ensures Inv(c, s')
  {
    if MovesItem(l) {
      InvMove(c, s, l, s');
    } else {
      InvStay(c, s, l, s');
    }
  }

  /** Every state of every run satisfies the invariant. */
  lemma {:induction false} InvRun(c: Config, trace: seq<State>, labels: seq<Label>, k: nat)
    requires c.Valid() && Run(c, trace, labels) && trace[0] == Init(c) && k < |trace|
    ensures Inv(c, trace[k])
  {
    hide Inv; hide Step; hide Init;
    if k == 0 {
      InitInv(c);
    } else {
      InvRun(c, trace, labels, k - 1);
      InvStep(c, trace[k - 1], labels[k - 1], trace[k]);
    }
  }

  // ---------------------------------------------------------------------------------------------
  // Safety
  // ---------------------------------------------------------------------------------------------

  /** In every run, a path never has more candidates between hand-out and release than its bound. */
  lemma SlotsPerPath(c: Config, trace: seq<State>, labels: seq<Label>, k: nat, p: PathId)
    requires c.Valid() && Run(c, trace, labels) && trace[0] == Init(c) && k < |trace|
    requires c.cap > 0
    ensures |Active(c.tasks, trace[k].stage, p)| <= c.cap
  {
    InvRun(c, trace, labels, k);
  }

  /** Proofs are never withdrawn. */
  lemma {:induction false} ProofsAreKept(c: Config, trace: seq<State>, labels: seq<Label>, j: nat, k: nat)
    requires Run(c, trace, labels) && j <= k < |trace|
    ensures trace[j].proven <= trace[k].proven
  {
    if j < k {
      ProofsAreKept(c, trace, labels, j, k - 1);
      assert Step(c, trace[k - 1], labels[k - 1], trace[k]);
    }
  }

  /**
   * Once a worker has published a proof for a path, no further candidate of that path is chosen,
   * sent to the workers or started by one.
   */
  lemma ProofStopsThePath(c: Config, trace: seq<State>, labels: seq<Label>, j: nat, k: nat)
    requires c.Valid() && c.cap == 1 && Run(c, trace, labels) && trace[0] == Init(c) && j <= k < |labels|
    ensures labels[k].Pick? ==> trace[k].sched.order != [] && labels[k].place < |trace[k].sched.order|
                                && trace[k].sched.At(labels[k].place) !in trace[j].proven
    ensures labels[k].Hand? ==> trace[k].pc.Offer? && trace[k].pc.item < |c.tasks|
                                && c.tasks[trace[k].pc.item] !in trace[j].proven
    ensures labels[k].Start? ==> trace[k].out != [] && trace[k].out[0] < |c.tasks|
                                 && c.tasks[trace[k].out[0]] !in trace[j].proven
  {
    ProofsAreKept(c, trace, labels, j, k);
    InvRun(c, trace, labels, k);
    assert Step(c, trace[k], labels[k], trace[k + 1]);
    if labels[k].Start? {
      assert trace[k].out[0] in trace[k].out;
    }
  }

  // ---------------------------------------------------------------------------------------------
  // Progress
  // ---------------------------------------------------------------------------------------------

  /** Some goroutine can take a step, and the scan need not be cancelled for it. */
  ghost predicate CanMove(c: Config, s: State) {
    exists l, s' :: l != Cancel && Step(c, s, l, s')
  }

  /**
   * No deadlock: until the dispatcher has exited, some goroutine can move. Attempts are assumed to
   * come to an end (label Finish); nothing is assumed about scheduling.
   */
  lemma NoDeadlock(c: Config, s: State)
    requires c.Valid() && Inv(c, s) && s.pc != Exited
    ensures CanMove(c, s)
  {
    match s.pc
    case Drain => DrainMoves(c, s);
    case Choose(sent) => ChooseMoves(c, s);
    case Offer(i) => OfferMoves(c, s);
    case Wait => WaitMoves(c, s);
    case Closing => ClosingMoves(c, s);
  }

  lemma DrainMoves(c: Config, s: State)
    requires Inv(c, s) && s.pc == Drain
    ensures CanMove(c, s)
  {
    if s.inputNil || (s.input == [] && !s.inputClosed) {
      assert Step(c, s, NothingToDrain, s.(pc := Choose(false)));
    } else if s.input != [] {
      assert Step(c, s, Receive, s.(input := s.input[1..], queue := s.queue + [s.input[0]], pc := Drain));
    } else {
      assert Step(c, s, SeeClosed, s.(inputNil := true, pc := Choose(false)));
    }
  }

  lemma ReleaseMoves(c: Config, s: State)
    requires Inv(c, s) && (s.pc.Choose? || s.pc == Wait) && s.release != []
    ensures CanMove(c, s)
  {
    assert s.release[0] in s.release;
    var s' := s.(release := s.release[1..],
                 sched := s.sched.Done(c.tasks[s.release[0]]),
                 stage := s.stage[s.release[0] := Released],
                 pc := if s.pc == Wait then Drain else s.pc);
    assert Step(c, s, TakeRelease, s');
  }

  /** The scheduler never asks for an item that has not arrived. */
  lemma ChooseMoves(c: Config, s: State)
    requires Inv(c, s) && s.pc.Choose?
    ensures CanMove(c, s)
  {
    PickOrIdle(s.sched, s.proven, |s.queue|);
    if s.release != [] {
      ReleaseMoves(c, s);
    } else if s.sched.Idle(s.proven, |s.queue|) {
      var s' := s.(pc := if s.pc.sent then Drain else if Finished(s) then Closing else Wait);
      assert Step(c, s, NothingToPick, s');
    } else {
      var k: nat :| s.sched.Picks(s.proven, |s.queue|, k);
      PickMoves(c, s, k);
    }
  }

  lemma PickMoves(c: Config, s: State, k: nat)
    requires Inv(c, s) && s.pc.Choose? && s.release == [] && s.sched.Picks(s.proven, |s.queue|, k)
    ensures CanMove(c, s)
  {
    PickedItem(c, s, k);
    var index := s.sched.pending[s.sched.At(k)][0];
    var s' := s.(sched := s.sched.Serve(k), stage := s.stage[s.queue[index] := Held], pc := Offer(s.queue[index]));
    assert Step(c, s, Pick(k), s');
  }

  /** As long as an item is in a worker's hands or queue, some worker can move. */
  lemma WorkerMoves(c: Config, s: State)
    requires c.Valid() && Inv(c, s) && !s.cancelled && (s.out != [] || Busy(s.stage) != {})
    ensures CanMove(c, s)
  {
    if Busy(s.stage) != {} {
      var i :| i in Busy(s.stage);
      assert Step(c, s, Finish(i), s.(stage := s.stage[i := Closed]));
    } else {
      assert s.out[0] in s.out;
      assert Step(c, s, Start, s.(out := s.out[1..], stage := s.stage[s.out[0] := Running]));
    }
  }

  lemma OfferMoves(c: Config, s: State)
    requires c.Valid() && Inv(c, s) && s.pc.Offer?
    ensures CanMove(c, s)
  {
    if s.cancelled {
      assert Step(c, s, Abort, s.(pc := Closing));
    } else if |s.out| < c.outCap {
      var s' := s.(out := s.out + [s.pc.item], handed := s.handed + [s.pc.item],
                   relays := s.relays + {s.pc.item}, stage := s.stage[s.pc.item := Queued], pc := Choose(true));
      assert Step(c, s, Hand, s');
    } else {
      WorkerMoves(c, s);
    }
  }

  /** A blocked dispatcher is never blocked for ever: input, a worker or a relay will wake it. */
  lemma WaitMoves(c: Config, s: State)
    requires c.Valid() && Inv(c, s) && s.pc == Wait
    ensures CanMove(c, s)
  {
    if s.cancelled {
      assert Step(c, s, Abort, s.(pc := Closing));
    } else if s.release != [] {
      ReleaseMoves(c, s);
    } else if !s.inputNil {
      InputMoves(c, s);
    } else if s.out != [] || Busy(s.stage) != {} {
      WorkerMoves(c, s);
    } else if exists i: nat :: i < |s.stage| && s.stage[i] == Closed {
      RelayMoves(c, s);
    } else {
      NothingInFlight(c, s);
      IdleMeansExhausted(c, s);
    }
  }

  lemma RelayMoves(c: Config, s: State)
    requires Inv(c, s) && !s.cancelled && s.release == [] && exists i: nat :: i < |s.stage| && s.stage[i] == Closed
    ensures CanMove(c, s)
  {
    var i: nat :| i < |s.stage| && s.stage[i] == Closed;
    var s' := s.(relays := s.relays - {i}, release := s.release + [i], stage := s.stage[i := Releasing]);
    assert Step(c, s, Relay(i), s');
  }

  lemma NothingInFlight(c: Config, s: State)
    requires Inv(c, s) && s.pc == Wait && !s.cancelled && s.inputNil && s.release == [] && s.out == []
    requires Busy(s.stage) == {} && forall i: nat :: i < |s.stage| ==> s.stage[i] != Closed
    ensures forall i: nat :: i < |s.stage| ==> !InFlight(s.stage[i])
    ensures |s.queue| == |c.tasks|
  {
    hide QueueInv;
    forall i: nat | i < |s.stage| ensures !InFlight(s.stage[i]) {
      assert i !in s.out && i !in s.release && i !in Busy(s.stage);
    }
    assert |s.queue| == |Range(0, s.produced)| == |c.tasks|;
  }

  lemma InputMoves(c: Config, s: State)
    requires c.Valid() && Inv(c, s) && s.pc == Wait && !s.inputNil
    ensures CanMove(c, s)
  {
    if s.input != [] {
      assert Step(c, s, Receive, s.(input := s.input[1..], queue := s.queue + [s.input[0]], pc := Drain));
    } else if s.inputClosed {
      assert Step(c, s, SeeClosed, s.(inputNil := true, pc := Drain));
    } else if s.produced < |c.tasks| {
      assert Step(c, s, Produce, s.(produced := s.produced + 1, input := s.input + [s.produced]));
    } else {
      assert Step(c, s, CloseInput, s.(inputClosed := true));
    }
  }

  /** With all input in and nothing in flight, a scheduler without eligible work is exhausted. */
  lemma IdleMeansExhausted(c: Config, s: State)
    requires Inv(c, s) && s.sched.Idle(s.proven, |s.queue|) && |s.queue| == |c.tasks| && Quiet(s)
    ensures s.sched.Exhausted(s.proven)
  {
    IdleMeansNothingEligible(s.sched, s.proven, |s.queue|);
    forall p | p in s.sched.pending && s.sched.pending[p] != [] ensures p in s.proven {
      var i := s.sched.pending[p][0];
      assert i in s.sched.pending[p];
      assert Active(c.tasks, s.stage, p) == {};
      assert Count(s.sched.inflight, p) == |Active(c.tasks, s.stage, p)|;
      assert !s.sched.Eligible(s.proven, |s.queue|, p);
    }
  }

  lemma ClosingMoves(c: Config, s: State)
    requires Inv(c, s) && s.pc == Closing
    ensures CanMove(c, s)
  {
    if s.relays == {} {
      assert Step(c, s, Exit, s.(pc := Exited));
    } else {
      var i :| i in s.relays;
      assert s.cancelled by {
        assert i < |s.stage| && InFlight(s.stage[i]);
      }
      assert Step(c, s, RelayQuit(i), s.(relays := s.relays - {i}));
    }
  }

  // ---------------------------------------------------------------------------------------------
  // Termination
  // ---------------------------------------------------------------------------------------------

  /** What a candidate still has to go through. */
  function Remaining(g: Stage): nat {
    match g
    case Waiting => 9
    case Held => 8
    case Queued => 6
    case Running => 5
    case Proved => 4
    case Closed => 3
    case Releasing => 2
    case Released => 1
  }

  function TotalRemaining(stage: seq<Stage>): nat {
    if stage == [] then 0 else TotalRemaining(stage[..|stage| - 1]) + Remaining(stage[|stage| - 1])
  }

  lemma {:induction false} TotalMove(stage: seq<Stage>, i: nat, to: Stage)
    requires i < |stage|
    ensures TotalRemaining(stage[i := to]) == TotalRemaining(stage) - Remaining(stage[i]) + Remaining(to)
  {
    var n := |stage| - 1;
    var stage' := stage[i := to];
    if i < n {
      assert stage'[..n] == stage[..n][i := to];
      TotalMove(stage[..n], i, to);
    } else {
      assert stage'[..n] == stage[..n];
    }
  }

  /** The dispatcher's position inside one round. */
  function Rank(pc: Pc): nat {
    match pc
    case Choose(true) => 5
    case Drain => 4
    case Choose(false) => 3
    case Offer(_) => 3
    case Wait => 2
    case Closing => 1
    case Exited => 0
  }

  /** What all goroutines together still have to do, the dispatcher's rounds apart. */
  function Work(c: Config, s: State): nat
    requires s.produced <= |c.tasks|
  {
    TotalRemaining(s.stage) + 2 * (|c.tasks| - s.produced) + |s.input| + |s.relays|
    + (if s.inputClosed then 0 else 1) + (if s.inputNil then 0 else 1) + (if s.cancelled then 0 else 1)
  }

  /** A bound on the number of steps still possible, whoever takes them. */
  function Measure(c: Config, s: State): nat
    requires s.produced <= |c.tasks|
  {
    6 * Work(c, s) + Rank(s.pc)
  }

  /** Every step of every goroutine, a cancellation included, uses up some of the measure. */
  lemma MeasureFalls(c: Config, s: State, l: Label, s': State)
    requires Inv(c, s) && Step(c, s, l, s')
    ensures s'.produced <= |c.tasks| && Measure(c, s') < Measure(c, s)
  {
    MovesOf(c, s, l, s');
    InputStep(c, s, l, s');
    if MovesItem(l) {
      MoveUsesWork(c, s, l, s');
    } else {
      StayUsesMeasure(c, s, l, s');
    }
  }

  lemma MoveUsesWork(c: Config, s: State, l: Label, s': State)
    requires s.produced <= |c.tasks| && MovesItem(l) && Moved(s, l, s') && Step(c, s, l, s')
    ensures s'.produced == s.produced && Work(c, s') < Work(c, s)
  {
    if l.Relay? {
      RelayUsesWork(c, s, l.item, s');
    } else if l == TakeRelease || l.Pick? || l == Hand {
      DispatcherUsesWork(c, s, l, s');
    } else {
      WorkerUsesWork(c, s, l, s');
    }
  }

  lemma WorkerUsesWork(c: Config, s: State, l: Label, s': State)
    requires s.produced <= |c.tasks| && (l == Start || l.Prove? || l.Finish?) && Moved(s, l, s') && Step(c, s, l, s')
    ensures s'.produced == s.produced && Work(c, s') < Work(c, s)
  {
    match l
    case Prove(i) => TotalMove(s.stage, i, Proved);
    case Finish(i) => TotalMove(s.stage, i, Closed);
    case Start => TotalMove(s.stage, s.out[0], if s.cancelled then Closed else Running);
  }

  lemma RelayUsesWork(c: Config, s: State, i: nat, s': State)
    requires s.produced <= |c.tasks| && Moved(s, Relay(i), s') && Step(c, s, Relay(i), s')
    ensures s'.produced == s.produced && Work(c, s') < Work(c, s)
  {
    TotalMove(s.stage, i, Releasing);
  }

  lemma DispatcherUsesWork(c: Config, s: State, l: Label, s': State)
    requires s.produced <= |c.tasks| && (l == TakeRelease || l.Pick? || l == Hand) && Moved(s, l, s')
             && Step(c, s, l, s')
    ensures s'.produced == s.produced && Work(c, s') < Work(c, s)
  {
    match l
    case TakeRelease => TotalMove(s.stage, s.release[0], Released);
    case Pick(k) => TotalMove(s.stage, s'.pc.item, Held);
    case Hand =>
      TotalMove(s.stage, s.pc.item, Queued);
      assert |s'.relays| <= |s.relays| + 1;
  }

  lemma StayUsesMeasure(c: Config, s: State, l: Label, s': State)
    requires s.produced <= |c.tasks| && s'.produced <= |c.tasks|
    requires !MovesItem(l) && Moved(s, l, s') && Step(c, s, l, s')
    ensures Measure(c, s') < Measure(c, s)
  {
  }

  lemma {:induction false} TotalOfWaiting(stage: seq<Stage>)
    requires forall i :: 0 <= i < |stage| ==> stage[i] == Waiting
    ensures TotalRemaining(stage) == 9 * |stage|
  {
    if stage != [] {
      TotalOfWaiting(stage[..|stage| - 1]);
    }
  }

  lemma MeasureAtStart(c: Config)
    ensures Measure(c, Init(c)) == 66 * |c.tasks| + 22
  {
    TotalOfWaiting(Init(c).stage);
  }

  lemma MeasureStep(c: Config, trace: seq<State>, labels: seq<Label>, k: nat)
    requires c.Valid() && Run(c, trace, labels) && trace[0] == Init(c) && k < |labels|
    ensures trace[k].produced <= |c.tasks| && trace[k + 1].produced <= |c.tasks|
    ensures Measure(c, trace[k + 1]) < Measure(c, trace[k])
  {
    InvRun(c, trace, labels, k);
    MeasureFalls(c, trace[k], labels[k], trace[k + 1]);
  }

  /** A strictly falling sequence of naturals is no longer than its first element allows. */
  lemma {:induction false} FallingSequence(m: seq<nat>)
    requires m != [] && forall k :: 0 <= k < |m| - 1 ==> m[k + 1] < m[k]
    ensures |m| <= m[0] + 1
  {
    if |m| > 1 {
      FallingSequence(m[1..]);
    }
  }

  /**
   * Every run is finite, cancelled or not: at most 66 steps per candidate and 22 more. Together
   * with NoDeadlock, every run that is continued for as long as it can be ends with the dispatcher
   * gone.
   */
  lemma RunsAreBounded(c: Config, trace: seq<State>, labels: seq<Label>)
    requires c.Valid() && Run(c, trace, labels) && trace[0] == Init(c)
    ensures |labels| <= 66 * |c.tasks| + 22
    ensures !CanMove(c, trace[|labels|]) ==> trace[|labels|].pc == Exited
  {
    MeasureAtStart(c);
    var m := seq(|trace|, k requires 0 <= k < |trace| =>
                   if trace[k].produced <= |c.tasks| then Measure(c, trace[k]) else 0);
    forall k | 0 <= k < |m| - 1 ensures m[k + 1] < m[k] {
      MeasureStep(c, trace, labels, k);
    }
    FallingSequence(m);
    EndsExited(c, trace, labels);
  }

  lemma EndsExited(c: Config, trace: seq<State>, labels: seq<Label>)
    requires c.Valid() && Run(c, trace, labels) && trace[0] == Init(c)
    ensures !CanMove(c, trace[|labels|]) ==> trace[|labels|].pc == Exited
  {
    InvRun(c, trace, labels, |labels|);
    if trace[|labels|].pc != Exited {
      NoDeadlock(c, trace[|labels|]);
    }
  }

  /** Relays do not outlive the dispatcher. */
  lemma {:induction false} NoRelayOutlives(c: Config, trace: seq<State>, labels: seq<Label>, k: nat)
    requires Run(c, trace, labels) && trace[0] == Init(c) && k <= |labels|
    ensures trace[k].pc == Exited ==> trace[k].relays == {}
  {
    if k > 0 {
      NoRelayOutlives(c, trace, labels, k - 1);
      assert Step(c, trace[k - 1], labels[k - 1], trace[k]);
    }
  }

  /**
   * A run that cannot be continued is over for every goroutine: the dispatcher has exited, the producer has
   * closed its channel, no relay is left, no worker is busy, and no item waits for a worker that is left.
   */
  lemma EverythingEnds(c: Config, trace: seq<State>, labels: seq<Label>)
    requires c.Valid() && Run(c, trace, labels) && trace[0] == Init(c) && !CanMove(c, trace[|labels|])
    ensures var s := trace[|labels|];
            && s.pc == Exited && s.inputClosed && s.relays == {} && Busy(s.stage) == {}
            && (s.out == [] || s.workers == 0)
  {
    hide QueueInv; hide SlotInv; hide OrderInv; hide HistoryInv; hide ProofInv;
    var s := trace[|labels|];
    InvRun(c, trace, labels, |labels|);
    EndsExited(c, trace, labels);
    NoRelayOutlives(c, trace, labels, |labels|);
    SomeoneMoves(c, s);
  }

  /** Until all of them are done, producer or workers can move, even after the dispatcher has exited. */
  lemma SomeoneMoves(c: Config, s: State)
    requires Inv(c, s) && s.pc == Exited
    ensures !s.inputClosed || Busy(s.stage) != {} || (s.out != [] && s.workers > 0) ==> CanMove(c, s)
  {
    hide QueueInv; hide SlotInv; hide OrderInv; hide HistoryInv; hide ProofInv;
    if !s.inputClosed {
      assert Step(c, s, CloseInput, s.(inputClosed := true));
    } else if Busy(s.stage) != {} {
      var i :| i in Busy(s.stage);
      assert Step(c, s, Finish(i), s.(stage := s.stage[i := Closed]));
    } else if s.out != [] && s.workers > 0 {
      assert s.out[0] in s.out && InFlight(s.stage[s.out[0]]);
      assert Step(c, s, Start,
                  s.(out := s.out[1..], stage := s.stage[s.out[0] := Closed], workers := s.workers - 1));
    }
  }

  /** How often a worker took an item. */
  function Starts(labels: seq<Label>): nat {
    if labels == [] then 0 else Starts(labels[..|labels| - 1]) + (if labels[|labels| - 1] == Start then 1 else 0)
  }

  /** After a cancellation no further attempt begins, and every worker takes at most one more item and returns. */
  lemma {:induction false} CancelStopsWork(c: Config, trace: seq<State>, labels: seq<Label>, k: nat)
    requires Run(c, trace, labels) && trace[0].cancelled && k <= |labels|
    ensures trace[k].cancelled && Busy(trace[k].stage) <= Busy(trace[0].stage)
    ensures Starts(labels[..k]) + trace[k].workers == trace[0].workers
  {
    hide Step; hide Busy;
    if k > 0 {
      CancelStopsWork(c, trace, labels, k - 1);
      assert labels[..k][..k - 1] == labels[..k - 1];
      CancelledStep(c, trace[k - 1], labels[k - 1], trace[k]);
    }
  }

  lemma CancelledStep(c: Config, s: State, l: Label, s': State)
    requires Step(c, s, l, s') && s.cancelled
    ensures s'.cancelled && Busy(s'.stage) <= Busy(s.stage)
    ensures s'.workers + (if l == Start then 1 else 0) == s.workers
  {
    hide Schedule.Serve; hide Schedule.Done; hide Schedule.Picks; hide Schedule.Idle; hide Schedule.Exhausted;
    match l
    case Start => FewerBusy(s.stage, s.out[0], Closed);
    case Finish(i) => FewerBusy(s.stage, i, Closed);
    case Prove(i) => FewerBusy(s.stage, i, Proved);
    case _ =>
  }

  lemma FewerBusy(stage: seq<Stage>, i: nat, g: Stage)
    requires i < |stage| && ((g != Running && g != Proved) || stage[i] == Running)
    ensures Busy(stage[i := g]) <= Busy(stage)
  {
  }

  // ---------------------------------------------------------------------------------------------
  // What has been delivered when the dispatcher is gone
  // ---------------------------------------------------------------------------------------------

  /** The items of one path within a list of items. */
  function OnPath(tasks: seq<PathId>, items: seq<nat>, p: PathId): (r: seq<nat>)
    requires forall k :: 0 <= k < |items| ==> items[k] < |tasks|
    ensures forall i :: i in r <==> i in items && tasks[i] == p
  {
    if items == [] then []
    else
      var last := items[|items| - 1];
      assert items == items[..|items| - 1] + [last];
      OnPath(tasks, items[..|items| - 1], p) + if tasks[last] == p then [last] else []
  }

  lemma {:induction false} OnPathAscends(tasks: seq<PathId>, items: seq<nat>, p: PathId)
    requires HistoryInv(tasks, items)
    ensures Ascending(OnPath(tasks, items, p))
  {
    if items != [] {
      var init, last := items[..|items| - 1], items[|items| - 1];
      OnPathAscends(tasks, init, p);
      forall i | i in OnPath(tasks, init, p) && tasks[last] == p ensures i < last {
        var k :| 0 <= k < |init| && init[k] == i;
        assert items[k] == i;
      }
      forall k | 0 <= k < |OnPath(tasks, init, p)| ensures OnPath(tasks, init, p)[k] in OnPath(tasks, init, p) {
      }
    }
  }

  /** An ascending sequence is determined by its elements. */
  lemma {:induction false} AscendingUnique(a: seq<nat>, b: seq<nat>)
    requires Ascending(a) && Ascending(b) && forall i :: i in a <==> i in b
    ensures a == b
  {
    DistinctCardinality(a);
    DistinctCardinality(b);
    assert Elements(a) == Elements(b);
    if a != [] {
      assert a[0] in b;
      assert b[0] in a;
      AscendingTail(a);
      AscendingTail(b);
      assert a[0] == b[0] by {
        var j :| 0 <= j < |b| && b[j] == a[0];
        var k :| 0 <= k < |a| && a[k] == b[0];
      }
      AscendingUnique(a[1..], b[1..]);
    }
  }

  /** Two ascending sequences, one wholly before the other, ascend together. */
  lemma AscendingConcat(a: seq<nat>, b: seq<nat>)
    requires Ascending(a) && Ascending(b) && forall i, j :: i in a && j in b ==> i < j
    ensures Ascending(a + b)
  {
    var ab := a + b;
    forall j, k | 0 <= j < k < |ab| ensures ab[j] < ab[k] {
      if j < |a| <= k {
        assert ab[j] in a && ab[k] in b;
      }
    }
  }

  /** The items of a path that the dispatcher is offering or gave up on. */
  function HeldOn(tasks: seq<PathId>, stage: seq<Stage>, p: PathId): (r: seq<nat>)
    requires |stage| == |tasks|
    ensures Ascending(r) && forall i :: i in r <==> 0 <= i < |tasks| && tasks[i] == p && stage[i] == Held
  {
    if tasks == [] then []
    else
      var n := |tasks| - 1;
      var rest := HeldOn(tasks[..n], stage[..n], p);
      assert forall k :: 0 <= k < |rest| ==> rest[k] in rest;
      if tasks[n] == p && stage[n] == Held then rest + [n] else rest
  }

  /**
   * At every moment of every run the dispatcher's promise holds: what it has sent of a path, the
   * item it is offering or gave up on, and what the scheduler still keeps for that path, in this
   * order, are exactly the path's candidates in the order they were generated.
   */
  lemma PathOrderIsKept(c: Config, trace: seq<State>, labels: seq<Label>, k: nat, p: PathId)
    requires c.Valid() && Run(c, trace, labels) && trace[0] == Init(c) && k <= |labels| && p in c.tasks
    ensures var s := trace[k];
            && |s.stage| == |c.tasks| && HistoryInv(c.tasks, s.handed) && p in s.sched.pending
            && OnPath(c.tasks, s.handed, p) + HeldOn(c.tasks, s.stage, p) + s.sched.pending[p] == Positions(c.tasks, p)
            && |HeldOn(c.tasks, s.stage, p)| <= 1
  {
    hide Step;
    InvRun(c, trace, labels, k);
    assert p in Elements(c.tasks);
    PathOrderHolds(c, trace[k], p);
  }

  lemma PathOrderHolds(c: Config, s: State, p: PathId)
    requires Inv(c, s) && p in s.sched.pending
    ensures HistoryInv(c.tasks, s.handed) && |s.stage| == |c.tasks|
    ensures OnPath(c.tasks, s.handed, p) + HeldOn(c.tasks, s.stage, p) + s.sched.pending[p] == Positions(c.tasks, p)
    ensures |HeldOn(c.tasks, s.stage, p)| <= 1
  {
    hide OnPath; hide HeldOn; hide Positions;
    var sent, held, left := OnPath(c.tasks, s.handed, p), HeldOn(c.tasks, s.stage, p), s.sched.pending[p];
    OnPathAscends(c.tasks, s.handed, p);
    assert ListsWaiting(c.tasks, s.stage, p, left);
    SentBeforeWaiting(c, s, p);
    HeldInBetween(c, s, p);
    AscendingConcat(sent, held);
    AscendingConcat(sent + held, left);
    forall i ensures i in sent + held + left <==> i in Positions(c.tasks, p) {
      assert i in sent + held + left <==> i in sent || i in held || i in left;
      assert i in s.handed <==> 0 <= i < |s.stage| && Sent(s.stage[i]);
    }
    AscendingUnique(sent + held + left, Positions(c.tasks, p));
  }

  lemma FirstOf(items: seq<nat>)
    requires items != []
    ensures items[0] in items
  {
  }

  lemma FirstTwo(items: seq<nat>)
    requires |items| > 1 && Ascending(items)
    ensures items[0] in items && items[1] in items && items[0] < items[1]
  {
  }

  lemma HeldInBetween(c: Config, s: State, p: PathId)
    requires OrderInv(c.tasks, s.stage) && HistoryInv(c.tasks, s.handed) && HandedInv(s)
    requires p in s.sched.pending && ListsWaiting(c.tasks, s.stage, p, s.sched.pending[p])
    ensures forall i, j :: i in OnPath(c.tasks, s.handed, p) && j in HeldOn(c.tasks, s.stage, p) ==> i < j
    ensures forall i, j :: i in HeldOn(c.tasks, s.stage, p) && j in s.sched.pending[p] ==> i < j
    ensures |HeldOn(c.tasks, s.stage, p)| <= 1
  {
    hide OnPath; hide HeldOn;
    var held := HeldOn(c.tasks, s.stage, p);
    forall i, j | i in OnPath(c.tasks, s.handed, p) && j in held ensures i < j {
      assert i in s.handed;
    }
    if |held| > 1 {
      FirstTwo(held);
      assert false;
    }
  }

  lemma SentBeforeWaiting(c: Config, s: State, p: PathId)
    requires OrderInv(c.tasks, s.stage) && HistoryInv(c.tasks, s.handed) && HandedInv(s)
    requires p in s.sched.pending && ListsWaiting(c.tasks, s.stage, p, s.sched.pending[p])
    ensures forall i, j :: i in OnPath(c.tasks, s.handed, p) && j in s.sched.pending[p] ==> i < j
  {
    forall i, j | i in OnPath(c.tasks, s.handed, p) && j in s.sched.pending[p] ensures i < j {
      assert i in s.handed;
    }
  }

  /** The waiting items of the paths in a set. */
  function WaitingOn(tasks: seq<PathId>, stage: seq<Stage>, among: set<PathId>): set<nat>
    requires |stage| == |tasks|
  {
    set i: nat | i < |tasks| && tasks[i] in among && stage[i] == Waiting
  }

  /** Adding up the queues of some paths counts their waiting items. */
  lemma {:induction false} QueueSum(tasks: seq<PathId>, stage: seq<Stage>, pending: map<PathId, seq<nat>>,
                                    order: seq<PathId>, among: set<PathId>)
    requires |stage| == |tasks| && Distinct(order)
    requires forall p :: p in order ==> p in pending && ListsWaiting(tasks, stage, p, pending[p])
    ensures Sum(order, QueueLengths(pending), among) == |WaitingOn(tasks, stage, Elements(order) * among)|
  {
    if order == [] {
      assert WaitingOn(tasks, stage, Elements(order) * among) == {};
    } else {
      var p, rest := order[0], order[1..];
      assert Distinct(rest);
      QueueSum(tasks, stage, pending, rest, among);
      PopDistinct(order);
      var mine := Elements(pending[p]);
      DistinctCardinality(pending[p]);
      var others := WaitingOn(tasks, stage, Elements(rest) * among);
      assert WaitingOn(tasks, stage, Elements(order) * among) == if p in among then others + mine else others;
      assert others !! mine;
    }
  }

  /**
   * A path is proven only by a worker that is running one of its items and finds a proof, and only if
   * the path may converge.
   */
  lemma {:induction false} ProofsAreEarned(c: Config, trace: seq<State>, labels: seq<Label>, k: nat, p: PathId)
    returns (j: nat, i: nat)
    requires c.Valid() && Run(c, trace, labels) && trace[0] == Init(c) && k <= |labels| && p in trace[k].proven
    ensures j < k && labels[j] == Prove(i) && p in c.convergent
    ensures i < |c.tasks| && c.tasks[i] == p && i in trace[j].handed
    ensures i < |trace[j].stage| && trace[j].stage[i] == Running && p in trace[j + 1].proven
  {
    if k == 0 {
      assert false;
    } else if p in trace[k - 1].proven {
      j, i := ProofsAreEarned(c, trace, labels, k - 1, p);
    } else {
      InvRun(c, trace, labels, k - 1);
      j := k - 1;
      i := ProvingStep(c, trace[j], labels[j], trace[k], p);
    }
  }

  lemma ProvingStep(c: Config, s: State, l: Label, s': State, p: PathId) returns (i: nat)
    requires Inv(c, s) && Step(c, s, l, s') && p !in s.proven && p in s'.proven
    ensures l == Prove(i) && i < |s.stage| && i < |c.tasks| && s.stage[i] == Running && c.tasks[i] == p
    ensures p in c.convergent && i in s.handed
  {
    assert l.Prove?;
    i := l.item;
    assert Sent(s.stage[i]);
  }

  /** Channels never hold more than their capacity, and no more items are worked on than there are workers. */
  ghost predicate WithinCapacity(c: Config, s: State) {
    && |s.input| <= c.inCap && |s.out| <= c.outCap && |s.release| <= 64
    && |Busy(s.stage)| <= s.workers <= c.workers
  }

  lemma {:induction false} CapacitiesHold(c: Config, trace: seq<State>, labels: seq<Label>, k: nat)
    requires c.Valid() && Run(c, trace, labels) && trace[0] == Init(c) && k <= |labels|
    ensures WithinCapacity(c, trace[k])
  {
    hide Step; hide WithinCapacity; hide Inv;
    if k == 0 {
      assert WithinCapacity(c, Init(c)) by {
        StartsEmpty(c);
      }
    } else {
      CapacitiesHold(c, trace, labels, k - 1);
      InvRun(c, trace, labels, k - 1);
      CapacityStep(c, trace[k - 1], labels[k - 1], trace[k]);
    }
  }

  lemma StartsEmpty(c: Config)
    ensures WithinCapacity(c, Init(c))
  {
    assert Busy(Init(c).stage) == {};
  }

  lemma CapacityStep(c: Config, s: State, l: Label, s': State)
    requires Inv(c, s) && WithinCapacity(c, s) && Step(c, s, l, s')
    ensures WithinCapacity(c, s')
  {
    InvStep(c, s, l, s');
    hide Inv;
    assert WorkerInv(c, s') by { BusyWorkers(c, s'); }
    hide Schedule.Serve; hide Schedule.Done; hide Schedule.Picks; hide Schedule.Idle; hide Busy;
  }

  lemma BusyWorkers(c: Config, s: State)
    requires Inv(c, s)
    ensures WorkerInv(c, s)
  {
  }

  /**
   * The result of an uncancelled scan. Once the dispatcher has exited, every candidate has either
   * been sent exactly once and released, or was never sent because its path is proven;
   * `skippedByProof` counts the latter; and of an unproven path everything was sent, in order. So
   * it was of every path that may not converge, whatever its workers found.
   */
  lemma Delivered(c: Config, trace: seq<State>, labels: seq<Label>)
    requires c.Valid() && Run(c, trace, labels) && trace[0] == Init(c)
    requires var s := trace[|labels|]; s.pc == Exited && !s.cancelled
    ensures var s := trace[|labels|];
            && |s.stage| == |c.tasks| && Distinct(s.handed)
            && (forall i: nat :: i < |c.tasks| ==>
                  if i in s.handed then s.stage[i] == Released else c.tasks[i] in s.proven)
            && Sum(s.sched.order, QueueLengths(s.sched.pending), s.proven) == |c.tasks| - |s.handed|
            && (forall k :: 0 <= k < |s.handed| ==> s.handed[k] < |c.tasks|)
            && (forall p :: p in c.tasks && p !in s.proven ==> OnPath(c.tasks, s.handed, p) == Positions(c.tasks, p))
            && s.proven <= c.convergent
            && (forall i: nat :: i < |c.tasks| && c.tasks[i] !in c.convergent ==>
                i in s.handed && s.stage[i] == Released)
            && (forall p :: p in c.tasks && p !in c.convergent ==>
                OnPath(c.tasks, s.handed, p) == Positions(c.tasks, p))
  {
    hide Step; hide Sum; hide QueueLengths; hide Positions; hide OnPath;
    var s := trace[|labels|];
    InvRun(c, trace, labels, |labels|);
    EveryItemIsSettled(c, s);
    SkippedCount(c, s);
    assert s.proven <= c.convergent;
    forall p | p in c.tasks && p !in s.proven ensures OnPath(c.tasks, s.handed, p) == Positions(c.tasks, p) {
      EverythingSent(c, s, p);
    }
  }

  /** Of an unproven path everything was sent, in order. */
  lemma EverythingSent(c: Config, s: State, p: PathId)
    requires Inv(c, s) && p in c.tasks && p !in s.proven && |s.stage| == |c.tasks| && HistoryInv(c.tasks, s.handed)
    requires forall i: nat :: i < |c.tasks| ==>
             s.stage[i] == Released || (s.stage[i] == Waiting && c.tasks[i] in s.proven)
    ensures OnPath(c.tasks, s.handed, p) == Positions(c.tasks, p)
  {
    hide OnPath; hide HeldOn; hide Positions;
    assert p in Elements(c.tasks);
    PathOrderHolds(c, s, p);
    NothingLeft(c, s, p);
    var sent, held := OnPath(c.tasks, s.handed, p), HeldOn(c.tasks, s.stage, p);
    if held != [] {
      FirstOf(held);
      assert false;
    }
    assert sent + [] + [] == sent;
  }

  /** Of an unproven path nothing is kept at the end. */
  lemma NothingLeft(c: Config, s: State, p: PathId)
    requires Inv(c, s) && p in s.sched.pending && p !in s.proven
    requires forall i: nat :: i < |c.tasks| ==>
             s.stage[i] == Released || (s.stage[i] == Waiting && c.tasks[i] in s.proven)
    ensures s.sched.pending[p] == []
  {
    assert ListsWaiting(c.tasks, s.stage, p, s.sched.pending[p]);
    if s.sched.pending[p] != [] {
      FirstOf(s.sched.pending[p]);
      assert false;
    }
  }

  lemma EveryItemIsSettled(c: Config, s: State)
    requires Inv(c, s) && s.pc == Exited && !s.cancelled
    ensures forall i: nat :: i < |c.tasks| ==>
              s.stage[i] == Released || (s.stage[i] == Waiting && c.tasks[i] in s.proven)
  {
    forall i: nat | i < |c.tasks| && s.stage[i] == Waiting ensures c.tasks[i] in s.proven {
      var p := c.tasks[i];
      assert p in Elements(c.tasks);
      assert ListsWaiting(c.tasks, s.stage, p, s.sched.pending[p]);
    }
  }

  lemma SkippedCount(c: Config, s: State)
    requires Inv(c, s) && s.pc == Exited && !s.cancelled
    ensures Sum(s.sched.order, QueueLengths(s.sched.pending), s.proven) == |c.tasks| - |s.handed|
  {
    EveryItemIsSettled(c, s);
    QueueSum(c.tasks, s.stage, s.sched.pending, s.sched.order, s.proven);
    SettledPartition(c.tasks, s.stage, s.handed, s.proven);
  }

  /** Every item is either sent or waiting on a proven path. */
  lemma SettledPartition(tasks: seq<PathId>, stage: seq<Stage>, handed: seq<nat>, proven: set<PathId>)
    requires |stage| == |tasks| && Distinct(handed)
    requires forall i :: i in handed <==> 0 <= i < |stage| && Sent(stage[i])
    requires forall i: nat :: i < |tasks| ==> stage[i] == Released || (stage[i] == Waiting && tasks[i] in proven)
    ensures |WaitingOn(tasks, stage, Elements(FirstSeen(tasks)) * proven)| == |tasks| - |handed|
  {
    hide FirstSeen; hide Range; hide Distinct;
    var skipped := WaitingOn(tasks, stage, Elements(tasks) * proven);
    forall i: nat ensures i in skipped <==> i < |tasks| && i !in handed {
      if i < |tasks| {
        assert tasks[i] in Elements(tasks);
      }
    }
    OthersCount(skipped, handed, |tasks|);
  }

  /** Of the first `n` numbers, those not listed are as many as the list leaves. */
  lemma OthersCount(others: set<nat>, listed: seq<nat>, n: nat)
    requires Distinct(listed) && forall i :: i in listed ==> i < n
    requires forall i: nat :: i in others <==> i < n && i !in listed
    ensures |others| == n - |listed|
  {
    hide Distinct; hide Range;
    RangeElements(n);
    DistinctCardinality(Range(0, n));
    DistinctCardinality(listed);
    assert Elements(Range(0, n)) == others + Elements(listed) && others !! Elements(listed);
  }

  lemma RangeElements(n: nat)
    ensures Distinct(Range(0, n)) && |Range(0, n)| == n && forall i: nat :: i in Range(0, n) <==> i < n
  {
    forall i: nat | i < n ensures i in Range(0, n) {
      assert Range(0, n)[i] == i;
    }
  }

  // ---------------------------------------------------------------------------------------------
  // Fairness
  // ---------------------------------------------------------------------------------------------

  /** The number of hand-out decisions among the first `k` labels. */
  function Picks(labels: seq<Label>, k: nat): nat
    requires k <= |labels|
  {
    if k == 0 then 0 else Picks(labels, k - 1) + if labels[k - 1].Pick? then 1 else 0
  }

  /** Path `p` is eligible whenever a hand-out is decided, and is passed over every time. */
  ghost predicate PassedOver(trace: seq<State>, labels: seq<Label>, p: PathId)
    requires |trace| == |labels| + 1
  {
    forall k :: 0 <= k < |labels| && labels[k].Pick? ==>
      && trace[k].sched.Eligible(trace[k].proven, |trace[k].queue|, p)
      && labels[k].place < |trace[k].sched.order|
      && trace[k].sched.At(labels[k].place) != p
  }

  /** Only hand-outs turn the rotation. */
  lemma OnlyPicksTurn(c: Config, s: State, l: Label, s': State)
    requires Step(c, s, l, s') && !l.Pick?
    ensures s'.sched.order == s.sched.order && s'.sched.cursor == s.sched.cursor
  {
  }

  /** Each hand-out to another path brings an eligible path closer to the cursor. */
  lemma {:induction false} CloserWithEachPick(c: Config, trace: seq<State>, labels: seq<Label>, p: PathId, k: nat)
    requires Run(c, trace, labels) && Inv(c, trace[0]) && PassedOver(trace, labels, p) && k <= |labels|
    requires p in c.tasks
    ensures Inv(c, trace[k]) && p in trace[k].sched.order
    ensures trace[k].sched.Distance(p) + Picks(labels, k) <= trace[0].sched.Distance(p)
  {
    if k == 0 {
      assert p in Elements(c.tasks);
    } else {
      CloserWithEachPick(c, trace, labels, p, k - 1);
      CloserStep(c, trace[k - 1], labels[k - 1], trace[k], p);
    }
  }

  lemma CloserStep(c: Config, s: State, l: Label, s': State, p: PathId)
    requires Inv(c, s) && Step(c, s, l, s') && p in s.sched.order
    requires l.Pick? ==>
             s.sched.Eligible(s.proven, |s.queue|, p) && l.place < |s.sched.order| && s.sched.At(l.place) != p
    ensures Inv(c, s') && p in s'.sched.order
    ensures s'.sched.Distance(p) + (if l.Pick? then 1 else 0) <= s.sched.Distance(p)
  {
    InvStep(c, s, l, s');
    if l.Pick? {
      CloserPick(c, s, l.place, s', p);
    } else {
      OnlyPicksTurn(c, s, l, s');
      SameDistance(s.sched, s'.sched, p);
    }
  }

  lemma CloserPick(c: Config, s: State, place: nat, s': State, p: PathId)
    requires s.sched.WellFormed() && s'.sched.WellFormed() && Step(c, s, Pick(place), s')
    requires s.sched.Eligible(s.proven, |s.queue|, p) && s.sched.At(place) != p
    ensures p in s.sched.order && p in s'.sched.order && s'.sched.Distance(p) < s.sched.Distance(p)
  {
    ServingBringsOthersCloser(s.sched, s.proven, |s.queue|, place, p);
  }

  lemma SameDistance(a: Schedule, b: Schedule, p: PathId)
    requires a.WellFormed() && b.WellFormed() && a.order == b.order && a.cursor == b.cursor && p in a.order
    ensures a.Distance(p) == b.Distance(p)
  {
    DistanceIsUnique(b, p, a.Distance(p));
  }

  /**
   * Fair service: over any stretch of any run, a path that is eligible at every hand-out is passed
   * over fewer times than there are paths.
   */
  lemma FairService(c: Config, trace: seq<State>, labels: seq<Label>, p: PathId)
    requires Run(c, trace, labels) && Inv(c, trace[0]) && PassedOver(trace, labels, p)
    requires p in c.tasks
    ensures Picks(labels, |labels|) < |FirstSeen(c.tasks)|
  {
    CloserWithEachPick(c, trace, labels, p, 0);
    CloserWithEachPick(c, trace, labels, p, |labels|);
  }
}
