/**
 * Any number of callers of parseCache.parse (pkg/jsanalysis/cache.go), interleaved in any way. A
 * call is cut where it lets go of the lock: looking up, parsing, publishing, and being woken.
 */
module SingleFlight {
  import opened Prelude
  import opened FlowSyntax
  import opened Analyses
  import opened CacheStore

  /** What the cache is used with: the digest of a source, the parser, and the byte budget. */
  datatype World = World(digest: string -> Digest, parse: (string, SourceMode) -> Analysis, maxBytes: nat) {
    function KeyOf(source: string, mode: SourceMode): ParseKey {
      ParseKey(digest(source), mode)
    }

    /** No two sources share a digest. */
    ghost predicate Injective() {
      forall x, y :: digest(x) == digest(y) ==> x == y
    }

    /** The analysis is the one every source with this key has. */
    ghost predicate Right(key: ParseKey, a: Analysis) {
      forall x :: digest(x) == key.digest ==> a == parse(x, key.mode)
    }
  }

  /** Where a caller is in its call. */
  datatype Caller =
    | Calling(source: string, mode: SourceMode)
    | Parsing(source: string, mode: SourceMode, flight: nat)
    | Parsed(source: string, mode: SourceMode, flight: nat, result: Analysis)
    | Waiting(source: string, mode: SourceMode, flight: nat)
    | Returned(source: string, mode: SourceMode, result: Analysis)
  {
    /** Is this caller the one that parses? */
    predicate Leads() {
      Parsing? || Parsed?
    }
  }

  /** A parse others may wait for; `published` is set when its channel is closed. */
  datatype Flight = Flight(key: ParseKey, leader: nat, published: Option<Analysis>)

  datatype State = State(lru: seq<Cached>, pending: map<ParseKey, nat>, flights: seq<Flight>, callers: seq<Caller>)

  /** Can caller `t` take its next step? Only waiting blocks. */
  predicate Enabled(s: State, t: nat) {
    t < |s.callers| && !s.callers[t].Returned?
    && (s.callers[t].Waiting? ==> s.callers[t].flight < |s.flights| && s.flights[s.callers[t].flight].published.Some?)
  }

  /** The next step of caller `t`; a blocked or finished caller stays where it is. */
  function Step(w: World, s: State, t: nat): State {
    if !Enabled(s, t) then s
    else match s.callers[t]
      case Calling(source, mode) => LookUp(w, s, t)
      case Parsing(source, mode, f) => s.(callers := s.callers[t := Parsed(source, mode, f, w.parse(source, mode))])
      case Parsed(source, mode, f, result) => Publish(w, s, t)
      case Waiting(source, mode, f) =>
        s.(callers := s.callers[t := Returned(source, mode, s.flights[f].published.value)])
      case Returned(_, _, _) => s
  }

  /** First critical section: a hit, a flight to wait for, or a new flight. */
  function LookUp(w: World, s: State, t: nat): State
    requires t < |s.callers| && s.callers[t].Calling?
  {
    var c := s.callers[t];
    var key := w.KeyOf(c.source, c.mode);
    if Has(s.lru, key) then
      var i := Place(s.lru, key);
      s.(lru := ToFront(s.lru, i), callers := s.callers[t := Returned(c.source, c.mode, s.lru[i].analysis)])
    else if key in s.pending then
      s.(callers := s.callers[t := Waiting(c.source, c.mode, s.pending[key])])
    else
      s.(pending := s.pending[key := |s.flights|], flights := s.flights + [Flight(key, t, None)],
         callers := s.callers[t := Parsing(c.source, c.mode, |s.flights|)])
  }

  /** Second critical section: the result is handed to the waiters and entered in the cache. */
  function Publish(w: World, s: State, t: nat): State
    requires t < |s.callers| && s.callers[t].Parsed?
  {
    var c := s.callers[t];
    var key := w.KeyOf(c.source, c.mode);
    State(Insert(s.lru, key, c.result, w.maxBytes), s.pending - {key},
          if c.flight < |s.flights| then s.flights[c.flight := s.flights[c.flight].(published := Some(c.result))]
          else s.flights,
          s.callers[t := Returned(c.source, c.mode, c.result)])
  }

  /** The state after callers take steps in the given order. */
  function Run(w: World, s: State, schedule: seq<nat>): State {
    if schedule == [] then s
    else Step(w, Run(w, s, schedule[..|schedule| - 1]), schedule[|schedule| - 1])
  }

  /** An empty cache and callers that are about to call. */
  predicate Start(s: State) {
    s.lru == [] && s.pending == map[] && s.flights == [] && forall t :: 0 <= t < |s.callers| ==> s.callers[t].Calling?
  }

  // ---------------------------------------------------------------------------------------------
  // What every step keeps
  // ---------------------------------------------------------------------------------------------

  ghost predicate StoreInv(w: World, s: State) {
    && Bounded(s.lru, w.maxBytes) && Accounted(s.lru)
    && forall c :: c in s.lru ==> w.Right(c.key, c.analysis)
  }

  /** Pending flights are unpublished, and nothing pending is in the cache. */
  ghost predicate PendingInv(s: State) {
    forall key :: key in s.pending ==>
      && s.pending[key] < |s.flights| && s.flights[s.pending[key]].key == key
      && s.flights[s.pending[key]].published.None? && !Has(s.lru, key)
  }

  /** An unpublished flight is pending and has a leader that is parsing; a published one is right. */
  ghost predicate FlightInv(w: World, s: State, f: nat)
    requires f < |s.flights|
  {
    var flight := s.flights[f];
    match flight.published
    case Some(a) => w.Right(flight.key, a)
    case None =>
      && flight.key in s.pending && s.pending[flight.key] == f
      && flight.leader < |s.callers|
      && s.callers[flight.leader].Leads() && s.callers[flight.leader].flight == f
  }

  ghost predicate CallerInv(w: World, s: State, t: nat)
    requires t < |s.callers|
  {
    var c := s.callers[t];
    && (c.Leads() || c.Waiting? ==> c.flight < |s.flights| && s.flights[c.flight].key == w.KeyOf(c.source, c.mode))
    && (c.Leads() ==> s.flights[c.flight].leader == t && s.flights[c.flight].published.None?)
    && (c.Parsed? || c.Returned? ==> c.result == w.parse(c.source, c.mode))
  }

  ghost predicate Inv(w: World, s: State) {
    && StoreInv(w, s) && PendingInv(s)
    && (forall f :: 0 <= f < |s.flights| ==> FlightInv(w, s, f))
    && (forall t :: 0 <= t < |s.callers| ==> CallerInv(w, s, t))
  }

  lemma ParseIsRight(w: World, source: string, mode: SourceMode)
    requires w.Injective()
    ensures w.Right(w.KeyOf(source, mode), w.parse(source, mode))
  {
  }

  lemma InvHit(w: World, s: State, t: nat)
    requires Inv(w, s) && t < |s.callers| && s.callers[t].Calling?
             && Has(s.lru, w.KeyOf(s.callers[t].source, s.callers[t].mode))
    ensures Inv(w, LookUp(w, s, t))
  {
    hide Bounded; hide Accounted; hide ToFront; hide Has; hide World.Right;
    var c, s' := s.callers[t], LookUp(w, s, t);
    var key := w.KeyOf(c.source, c.mode);
    var i := Place(s.lru, key);
    TouchKeeps(s.lru, i, w.maxBytes);
    RightHere(w, c.source, c.mode, s.lru[i].analysis);
    InvCallers(w, s, s', t);
    InvFlights(w, s, s', t);
  }

  lemma InvJoin(w: World, s: State, t: nat)
    requires Inv(w, s) && t < |s.callers| && s.callers[t].Calling?
    requires !Has(s.lru, w.KeyOf(s.callers[t].source, s.callers[t].mode))
             && w.KeyOf(s.callers[t].source, s.callers[t].mode) in s.pending
    ensures Inv(w, LookUp(w, s, t))
  {
    hide Bounded; hide Accounted; hide ToFront; hide Has; hide World.Right;
    var s' := LookUp(w, s, t);
    InvCallers(w, s, s', t);
    InvFlights(w, s, s', t);
  }

  /** What holds of an analysis filed under a source's key. */
  lemma RightHere(w: World, source: string, mode: SourceMode, a: Analysis)
    requires w.Right(w.KeyOf(source, mode), a)
    ensures a == w.parse(source, mode)
  {
  }

  /** Callers that did not move keep what they know while the flights stay as they are. */
  lemma InvCallers(w: World, s: State, s': State, t: nat)
    requires forall u :: 0 <= u < |s.callers| ==> CallerInv(w, s, u)
    requires t < |s.callers| == |s'.callers|
             && forall u :: 0 <= u < |s.callers| && u != t ==> s'.callers[u] == s.callers[u]
    requires s'.flights == s.flights
    ensures forall u :: 0 <= u < |s.callers| && u != t ==> CallerInv(w, s', u)
  {
    forall u | 0 <= u < |s.callers| && u != t ensures CallerInv(w, s', u) {
      assert CallerInv(w, s, u);
    }
  }

  /** Flights keep what they promise while a caller moves that leads none. */
  lemma InvFlights(w: World, s: State, s': State, t: nat)
    requires forall f :: 0 <= f < |s.flights| ==> FlightInv(w, s, f)
    requires t < |s.callers| == |s'.callers|
             && forall u :: 0 <= u < |s.callers| && u != t ==> s'.callers[u] == s.callers[u]
    requires !s.callers[t].Leads() && s'.flights == s.flights && s'.pending == s.pending
    ensures forall f :: 0 <= f < |s'.flights| ==> FlightInv(w, s', f)
  {
    hide World.Right;
    forall f | 0 <= f < |s'.flights| ensures FlightInv(w, s', f) {
      assert FlightInv(w, s, f);
    }
  }

  lemma InvLead(w: World, s: State, t: nat)
    requires Inv(w, s) && t < |s.callers| && s.callers[t].Calling?
    requires !Has(s.lru, w.KeyOf(s.callers[t].source, s.callers[t].mode))
             && w.KeyOf(s.callers[t].source, s.callers[t].mode) !in s.pending
    ensures Inv(w, LookUp(w, s, t))
  {
    hide Bounded; hide Accounted; hide ToFront; hide Has; hide World.Right;
    var s' := LookUp(w, s, t);
    forall f | 0 <= f < |s'.flights| ensures FlightInv(w, s', f) {
      assert f < |s.flights| ==> FlightInv(w, s, f);
    }
    forall u | 0 <= u < |s'.callers| ensures CallerInv(w, s', u) {
      assert CallerInv(w, s, u);
    }
  }

  lemma InvParse(w: World, s: State, t: nat)
    requires Inv(w, s) && t < |s.callers| && s.callers[t].Parsing?
    ensures Inv(w, Step(w, s, t))
  {
    hide Bounded; hide Accounted; hide Has; hide World.Right;
    var s' := Step(w, s, t);
    assert CallerInv(w, s, t);
    InvCallers(w, s, s', t);
    forall f | 0 <= f < |s'.flights| ensures FlightInv(w, s', f) {
      assert FlightInv(w, s, f);
    }
  }

  lemma InvWake(w: World, s: State, t: nat)
    requires Inv(w, s) && Enabled(s, t) && s.callers[t].Waiting?
    ensures Inv(w, Step(w, s, t))
  {
    hide Bounded; hide Accounted; hide Has; hide World.Right;
    var c, s' := s.callers[t], Step(w, s, t);
    assert CallerInv(w, s, t) && FlightInv(w, s, c.flight);
    RightHere(w, c.source, c.mode, s.flights[c.flight].published.value);
    InvCallers(w, s, s', t);
    InvFlights(w, s, s', t);
  }

  lemma InvPublish(w: World, s: State, t: nat)
    requires w.Injective() && Inv(w, s) && t < |s.callers| && s.callers[t].Parsed?
    ensures Inv(w, Publish(w, s, t))
  {
    hide Bounded; hide Accounted; hide World.Right; hide Insert;
    var c, s' := s.callers[t], Publish(w, s, t);
    var key := w.KeyOf(c.source, c.mode);
    assert CallerInv(w, s, t) && FlightInv(w, s, c.flight);
    ParseIsRight(w, c.source, c.mode);
    InsertKeeps(s.lru, key, c.result, w.maxBytes);
    assert StoreInv(w, s');
    InvPublishPending(w, s, t);
    forall f | 0 <= f < |s'.flights| ensures FlightInv(w, s', f) {
      assert FlightInv(w, s, f);
    }
    forall u | 0 <= u < |s'.callers| ensures CallerInv(w, s', u) {
      assert CallerInv(w, s, u);
    }
  }

  lemma InvPublishPending(w: World, s: State, t: nat)
    requires PendingInv(s) && t < |s.callers| && s.callers[t].Parsed? && CallerInv(w, s, t)
    requires FlightInv(w, s, s.callers[t].flight)
    ensures PendingInv(Publish(w, s, t))
  {
    hide Bounded; hide Accounted; hide World.Right; hide Insert; hide Has;
    var c, s' := s.callers[t], Publish(w, s, t);
    forall key | key in s'.pending
      ensures s'.pending[key] < |s'.flights| && s'.flights[s'.pending[key]].key == key
      ensures s'.flights[s'.pending[key]].published.None? && !Has(s'.lru, key)
    {
      InsertOtherKey(s.lru, w.KeyOf(c.source, c.mode), c.result, w.maxBytes, key);
    }
  }

  /** Publishing brings in no other key. */
  lemma InsertOtherKey(lru: seq<Cached>, key: ParseKey, a: Analysis, maxBytes: nat, other: ParseKey)
    requires other != key && !Has(lru, other)
    ensures !Has(Insert(lru, key, a, maxBytes), other)
  {
    if Size(a) <= maxBytes && !Has(lru, key) {
      var kept := Evict(lru, Size(a), maxBytes);
      assert forall j :: 0 < j < |kept| + 1 ==> Insert(lru, key, a, maxBytes)[j] == lru[j - 1];
    }
  }

  lemma InvStep(w: World, s: State, t: nat)
    requires w.Injective() && Inv(w, s)
    ensures Inv(w, Step(w, s, t))
  {
    hide Inv;
    if Enabled(s, t) {
      var c := s.callers[t];
      if c.Calling? {
        if Has(s.lru, w.KeyOf(c.source, c.mode)) {
          InvHit(w, s, t);
        } else if w.KeyOf(c.source, c.mode) in s.pending {
          InvJoin(w, s, t);
        } else {
          InvLead(w, s, t);
        }
      } else if c.Parsing? {
        InvParse(w, s, t);
      } else if c.Parsed? {
        InvPublish(w, s, t);
      } else {
        InvWake(w, s, t);
      }
    }
  }

  lemma {:induction false} InvRun(w: World, s: State, schedule: seq<nat>)
    requires w.Injective() && Start(s)
    ensures Inv(w, Run(w, s, schedule)) && |Run(w, s, schedule).callers| == |s.callers|
  {
    hide World.Injective;
    if schedule == [] {
      assert Total(s.lru) == 0;
    } else {
      InvRun(w, s, schedule[..|schedule| - 1]);
      InvStep(w, Run(w, s, schedule[..|schedule| - 1]), schedule[|schedule| - 1]);
    }
  }

  // ---------------------------------------------------------------------------------------------
  // What the callers can rely on
  // ---------------------------------------------------------------------------------------------

  /** Whatever the interleaving, every call returns what parsing its own source without a cache gives. */
  lemma AgreesWithParser(w: World, s: State, schedule: seq<nat>, t: nat)
    requires w.Injective() && Start(s) && t < |s.callers|
    ensures var r := Run(w, s, schedule);
            && |r.callers| == |s.callers|
            && var c := r.callers[t]; c.Returned? ==> c.result == w.parse(s.callers[t].source, s.callers[t].mode)
  {
    InvRun(w, s, schedule);
    SameQuestion(w, s, schedule, t);
    assert CallerInv(w, Run(w, s, schedule), t);
  }

  /** A caller never changes what it asked for. */
  lemma {:induction false} SameQuestion(w: World, s: State, schedule: seq<nat>, t: nat)
    requires t < |s.callers|
    ensures |Run(w, s, schedule).callers| == |s.callers|
    ensures Run(w, s, schedule).callers[t].source == s.callers[t].source
    ensures Run(w, s, schedule).callers[t].mode == s.callers[t].mode
  {
    hide Has; hide ToFront; hide Insert;
    if schedule != [] {
      SameQuestion(w, s, schedule[..|schedule| - 1], t);
    }
  }

  predicate SameKey(w: World, a: Caller, b: Caller) {
    w.KeyOf(a.source, a.mode) == w.KeyOf(b.source, b.mode)
  }

  /** No two callers parse the same source at the same time. */
  lemma OneParsePerKey(w: World, s: State, schedule: seq<nat>, t: nat, u: nat)
    requires w.Injective() && Start(s) && t < |s.callers| && u < |s.callers|
    ensures var r := Run(w, s, schedule);
            && |r.callers| == |s.callers|
            && (r.callers[t].Leads() && r.callers[u].Leads() && SameKey(w, r.callers[t], r.callers[u]) ==> t == u)
  {
    InvRun(w, s, schedule);
    var r := Run(w, s, schedule);
    assert CallerInv(w, r, t) && CallerInv(w, r, u);
    if r.callers[t].Leads() && r.callers[u].Leads() {
      assert FlightInv(w, r, r.callers[t].flight) && FlightInv(w, r, r.callers[u].flight);
    }
  }

  /** Whoever waits, waits for a caller that is parsing; so leaders never wait. */
  lemma WaitersHaveALeader(w: World, s: State, schedule: seq<nat>, t: nat)
    requires w.Injective() && Start(s) && t < |s.callers|
    ensures var r := Run(w, s, schedule);
            && |r.callers| == |s.callers|
            && (r.callers[t].Waiting? ==>
                  && r.callers[t].flight < |r.flights|
                  && var flight := r.flights[r.callers[t].flight];
                  flight.published.Some? || (flight.leader < |r.callers| && r.callers[flight.leader].Leads()
                                             && r.callers[flight.leader].flight == r.callers[t].flight))
  {
    InvRun(w, s, schedule);
    var r := Run(w, s, schedule);
    assert CallerInv(w, r, t);
    if r.callers[t].Waiting? {
      assert FlightInv(w, r, r.callers[t].flight);
    }
  }

  /** When a result is published its key is never in the cache already. */
  lemma NeverAlreadyPresent(w: World, s: State, schedule: seq<nat>, t: nat)
    requires w.Injective() && Start(s) && t < |s.callers|
    ensures var r := Run(w, s, schedule);
            && |r.callers| == |s.callers|
            && (r.callers[t].Parsed? ==> !Has(r.lru, w.KeyOf(r.callers[t].source, r.callers[t].mode)))
  {
    InvRun(w, s, schedule);
    var r := Run(w, s, schedule);
    assert CallerInv(w, r, t);
    if r.callers[t].Parsed? {
      assert FlightInv(w, r, r.callers[t].flight);
    }
  }

  /** The cache never exceeds its bounds, holds no key twice and accounts for every entry. */
  lemma CacheStaysBounded(w: World, s: State, schedule: seq<nat>)
    requires w.Injective() && Start(s)
    ensures Bounded(Run(w, s, schedule).lru, w.maxBytes) && Accounted(Run(w, s, schedule).lru)
    ensures CostOfAll(Run(w, s, schedule).lru) <= w.maxBytes && |Run(w, s, schedule).lru| <= 256
  {
    InvRun(w, s, schedule);
    HeldCost(Run(w, s, schedule).lru, w.maxBytes);
  }

  /** As long as some call has not returned, some caller can move. */
  lemma NoDeadlock(w: World, s: State, schedule: seq<nat>, t: nat)
    requires w.Injective() && Start(s) && t < |s.callers|
    ensures var r := Run(w, s, schedule);
            && |r.callers| == |s.callers| && (!r.callers[t].Returned? ==> exists u :: Enabled(r, u))
  {
    InvRun(w, s, schedule);
    WaitersHaveALeader(w, s, schedule, t);
    var r := Run(w, s, schedule);
    if !r.callers[t].Returned? {
      assert CallerInv(w, r, t);
      assert Enabled(r, t) || Enabled(r, r.flights[r.callers[t].flight].leader);
    }
  }

  /** The steps a caller has yet to take. */
  function Left(c: Caller): nat {
    match c
    case Calling(_, _) => 3
    case Parsing(_, _, _) => 2
    case Parsed(_, _, _, _) => 1
    case Waiting(_, _, _) => 1
    case Returned(_, _, _) => 0
  }

  function Work(callers: seq<Caller>): nat {
    if callers == [] then 0 else Work(callers[..|callers| - 1]) + Left(callers[|callers| - 1])
  }

  lemma {:induction false} WorkUpdate(callers: seq<Caller>, t: nat, c: Caller)
    requires t < |callers|
    ensures Work(callers[t := c]) == Work(callers) - Left(callers[t]) + Left(c)
  {
    var n := |callers| - 1;
    if t < n {
      WorkUpdate(callers[..n], t, c);
      assert callers[t := c][..n] == callers[..n][t := c];
    } else {
      assert callers[t := c][..n] == callers[..n];
    }
  }

  /** Every step brings all calls closer to returning: with `n` callers at most `3 * n` steps are ever taken. */
  lemma StepsAreBounded(w: World, s: State, t: nat)
    requires Enabled(s, t)
    ensures Work(Step(w, s, t).callers) < Work(s.callers)
  {
    WorkUpdate(s.callers, t, Step(w, s, t).callers[t]);
  }

  /** Every caller the schedule picks can move when it is picked. */
  ghost predicate Effective(w: World, s: State, schedule: seq<nat>) {
    schedule == [] ||
    (var init := schedule[..|schedule| - 1];
     Effective(w, s, init) && Enabled(Run(w, s, init), schedule[|schedule| - 1]))
  }

  lemma {:induction false} WorkAtStart(callers: seq<Caller>)
    ensures Work(callers) <= 3 * |callers|
  {
    if callers != [] {
      WorkAtStart(callers[..|callers| - 1]);
    }
  }

  /** Runs are short, and one that cannot be continued has answered every call. */
  lemma {:induction false} EveryCallReturns(w: World, s: State, schedule: seq<nat>)
    requires w.Injective() && Start(s) && Effective(w, s, schedule)
    ensures |schedule| + Work(Run(w, s, schedule).callers) <= 3 * |s.callers|
    ensures (forall u :: !Enabled(Run(w, s, schedule), u)) ==>
              forall t :: 0 <= t < |s.callers| ==>
                && t < |Run(w, s, schedule).callers|
                && Run(w, s, schedule).callers[t].Returned?
  {
    if schedule == [] {
      WorkAtStart(s.callers);
    } else {
      var init := schedule[..|schedule| - 1];
      EveryCallReturns(w, s, init);
      StepsAreBounded(w, Run(w, s, init), schedule[|schedule| - 1]);
    }
    forall t | 0 <= t < |s.callers|
      ensures |Run(w, s, schedule).callers| == |s.callers|
      ensures (forall u :: !Enabled(Run(w, s, schedule), u)) ==> Run(w, s, schedule).callers[t].Returned?
    {
      NoDeadlock(w, s, schedule, t);
    }
  }
}
