/** The bounded log of attempts (pkg/scanner/observation.go). */
module Observation {
  import opened Prelude

  const MAX_PATH_SAMPLES: nat := 32
  const MAX_PATHS: nat := 128
  const MAX_SAMPLES: nat := 256

  /** One attempt: who it is, and what came of it. */
  datatype Attempt = Attempt(
    run: nat, id: nat, parent: nat, path: string, identityIncomplete: bool,
    code: string, payload: string, snippet: string, error: string, parseError: string, truncated: bool)

  function Prefix(s: string, limit: nat): string {
    if |s| < limit then s else s[..limit]
  }

  /** What is kept of an attempt: its texts are cut. */
  function Trim(o: Attempt): Attempt {
    o.(truncated := o.truncated || |o.payload| > 512 || |o.snippet| > 512 || |o.error| > 256 || |o.parseError| > 256,
       payload := Prefix(o.payload, 512), snippet := Prefix(o.snippet, 512),
       error := Prefix(o.error, 256), parseError := Prefix(o.parseError, 256))
  }

  /** The text as far as `limit` goes. */
  ghost predicate CutAt(text: string, kept: string, limit: nat) {
    kept <= text && |kept| == if |text| <= limit then |text| else limit
  }

  /** The same attempt with long texts cut, which is marked exactly if a text is cut or was before. */
  ghost predicate KeptOf(o: Attempt, kept: Attempt) {
    && kept == o.(payload := kept.payload, snippet := kept.snippet, error := kept.error,
                  parseError := kept.parseError, truncated := kept.truncated)
    && CutAt(o.payload, kept.payload, 512) && CutAt(o.snippet, kept.snippet, 512)
    && CutAt(o.error, kept.error, 256) && CutAt(o.parseError, kept.parseError, 256)
    && (kept.truncated <==>
        o.truncated || kept.payload != o.payload || kept.snippet != o.snippet || kept.error != o.error
        || kept.parseError != o.parseError)
  }

  lemma TrimKeeps(o: Attempt)
    ensures KeptOf(o, Trim(o))
  {
  }

  // ---------------------------------------------------------------------------------------------
  // The log as a function of the attempts it was told about
  // ---------------------------------------------------------------------------------------------

  /** How many attempts ended with a code. */
  function Ended(history: seq<Attempt>, code: string): nat {
    if history == [] then 0
    else Ended(history[..|history| - 1], code) + if history[|history| - 1].code == code then 1 else 0
  }

  /** How many samples belong to a path. */
  function OnPath(samples: seq<Attempt>, path: string): nat {
    if samples == [] then 0
    else OnPath(samples[..|samples| - 1], path) + if samples[|samples| - 1].path == path then 1 else 0
  }

  function Paths(samples: seq<Attempt>): set<string> {
    set o | o in samples :: o.path
  }

  /** Is there room for one more sample on a path? */
  predicate Room(samples: seq<Attempt>, path: string) {
    && (path in Paths(samples) || |Paths(samples)| < MAX_PATHS)
    && OnPath(samples, path) < MAX_PATH_SAMPLES && |samples| < MAX_SAMPLES
  }

  /** The attempts kept: each that found room when it was recorded. */
  function Retained(history: seq<Attempt>): (r: seq<Attempt>)
    ensures |r| <= |history| && |r| <= MAX_SAMPLES && |Paths(r)| <= MAX_PATHS
    ensures forall path :: OnPath(r, path) <= MAX_PATH_SAMPLES
  {
    if history == [] then []
    else
      var o := history[|history| - 1];
      var kept := Retained(history[..|history| - 1]);
      var more := kept + [Trim(o)];
      assert more[..|kept|] == kept;
      assert Paths(more) == Paths(kept) + {o.path};
      if Room(kept, o.path) then more else kept
  }

  /** The sample with an id; the latest, should there be several. */
  function Lookup(samples: seq<Attempt>, id: nat): Option<Attempt> {
    if id == 0 || samples == [] then None
    else if samples[|samples| - 1].id == id then Some(samples[|samples| - 1])
    else Lookup(samples[..|samples| - 1], id)
  }

  /** The sum of all counters of a table. */
  ghost function Tally(m: map<string, nat>): nat {
    if m == map[] then 0
    else
      var k :| k in m;
      m[k] + Tally(m - {k})
  }

  lemma {:induction false} TallyWithout(m: map<string, nat>, k: string)
    requires k in m
    ensures Tally(m) == m[k] + Tally(m - {k})
    decreases m
  {
    var j :| j in m && Tally(m) == m[j] + Tally(m - {j});
    if j != k {
      TallyWithout(m - {j}, k);
      TallyWithout(m - {k}, j);
      assert m - {j} - {k} == m - {k} - {j};
    }
  }

  lemma TallyNext(m: map<string, nat>, k: string)
    ensures Tally(m[k := Count(m, k) + 1]) == Tally(m) + 1
  {
    var m' := m[k := Count(m, k) + 1];
    TallyWithout(m', k);
    assert m' - {k} == m - {k};
    if k in m {
      TallyWithout(m, k);
    } else {
      assert m - {k} == m;
    }
  }

  /** The table counts how every attempt ended, and its entries add up to their number. */
  ghost predicate CodesCounted(byCode: map<string, nat>, history: seq<Attempt>) {
    (forall c :: Count(byCode, c) == Ended(history, c)) && Tally(byCode) == |history|
  }

  /** The table counts the samples of every path that has some. */
  ghost predicate PathsCounted(paths: map<string, nat>, samples: seq<Attempt>) {
    paths.Keys == Paths(samples) && forall p :: Count(paths, p) == OnPath(samples, p)
  }

  lemma NothingCounted()
    ensures CodesCounted(map[], []) && PathsCounted(map[], []) && Retained([]) == []
  {
  }

  lemma CodesNext(byCode: map<string, nat>, history: seq<Attempt>, o: Attempt)
    requires CodesCounted(byCode, history)
    ensures CodesCounted(byCode[o.code := Count(byCode, o.code) + 1], history + [o])
  {
    hide Tally;
    TallyNext(byCode, o.code);
    var h, m := history + [o], byCode[o.code := Count(byCode, o.code) + 1];
    forall c ensures Count(m, c) == Ended(h, c) {
      assert h[..|h| - 1] == history;
      assert Count(byCode, c) == Ended(history, c);
    }
  }

  lemma PathsNext(paths: map<string, nat>, samples: seq<Attempt>, o: Attempt)
    requires PathsCounted(paths, samples)
    ensures PathsCounted(paths[o.path := Count(paths, o.path) + 1], samples + [o])
  {
    var t, m := samples + [o], paths[o.path := Count(paths, o.path) + 1];
    forall p ensures Count(m, p) == OnPath(t, p) {
      assert t[..|t| - 1] == samples;
      assert Count(paths, p) == OnPath(samples, p);
    }
    assert Paths(t) == Paths(samples) + {o.path};
  }

  /**
   * A sample is dropped exactly if its path would be the 129th, or there are 32 samples of its path, or
   * 256 in all.
   */
  ghost predicate MustDrop(samples: seq<Attempt>, path: string) {
    || ((forall o :: o in samples ==> o.path != path) && |Paths(samples)| == 128)
    || OnPath(samples, path) == 32
    || |samples| == 256
  }

  /** One more record: what becomes of the samples. */
  ghost predicate SampledNext(samples: seq<Attempt>, o: Attempt, after: seq<Attempt>) {
    if MustDrop(samples, o.path) then after == samples
    else |after| == |samples| + 1 && after[..|samples|] == samples && KeptOf(o, after[|samples|])
  }

  lemma RecordedNext(history: seq<Attempt>, o: Attempt)
    ensures SampledNext(Retained(history), o, Retained(history + [o]))
  {
    hide Trim; hide KeptOf;
    RetainedNext(history, o);
    TrimKeeps(o);
    assert OnPath(Retained(history), o.path) <= MAX_PATH_SAMPLES;
  }

  /** The tables say whether there is room. */
  lemma RoomCounted(paths: map<string, nat>, samples: seq<Attempt>, path: string)
    requires PathsCounted(paths, samples) && |samples| <= MAX_SAMPLES && |Paths(samples)| <= MAX_PATHS
    ensures Room(samples, path) <==>
              !((path !in paths && |paths| == MAX_PATHS) || Count(paths, path) >= MAX_PATH_SAMPLES
                || |samples| == MAX_SAMPLES)
  {
    assert |paths| == |paths.Keys|;
  }

  lemma RetainedNext(history: seq<Attempt>, o: Attempt)
    ensures Retained(history + [o]) == if Room(Retained(history), o.path) then Retained(history) + [Trim(o)]
            else Retained(history)
    ensures |Retained(history)| <= MAX_SAMPLES && |Paths(Retained(history))| <= MAX_PATHS
  {
    assert (history + [o])[..|history|] == history;
  }

  // ---------------------------------------------------------------------------------------------
  // The log
  // ---------------------------------------------------------------------------------------------

  class ObservationLog {
    var run: nat
    var next: nat
    var total: nat
    var dropped: nat
    var byCode: map<string, nat>
    var paths: map<string, nat>
    var samples: seq<Attempt>
    ghost var history: seq<Attempt>   // what was recorded in this run

    constructor ()
      ensures Valid() && run == 0 && next == 0 && history == []
    {
      NothingCounted();
      run, next, total, dropped := 0, 0, 0, 0;
      byCode, paths, samples, history := map[], map[], [], [];
    }

    /** Every counter agrees with what was recorded. */
    ghost predicate Valid()
      reads this
    {
      && samples == Retained(history)
      && total == |history| == |samples| + dropped
      && CodesCounted(byCode, history) && PathsCounted(paths, samples)
    }

    method Reset()
      requires Valid()
      modifies this
      ensures Valid() && history == [] && next == 0 && run == old(run) + 1
    {
      hide CodesCounted; hide PathsCounted; hide Retained;
      NothingCounted();
      run := run + 1;
      next, total, dropped := 0, 0, 0;
      byCode, paths, samples, history := map[], map[], [], [];
    }

    /** Announces an attempt; `path` is the digest of what it is about, unless that could not be encoded. */
    method Begin(path: Option<string>, parent: nat, payload: string, unknownPath: (nat, nat) -> string)
      returns (o: Attempt)
      requires Valid()
      modifies this`run, this`next
      ensures Valid() && history == old(history)
      ensures run == (if old(run) == 0 then 1 else old(run)) && next == old(next) + 1
      ensures o == Announced(run, next, path, parent, payload, unknownPath)
      ensures o.run == run && o.id == next && o.parent == parent && o.payload == payload && o.code == "unknown"
      ensures o.snippet == o.error == o.parseError == "" && !o.truncated && (o.identityIncomplete <==> path.None?)
    {
      if run == 0 {
        run := 1;
      }
      next := next + 1;
      o := Announced(run, next, path, parent, payload, unknownPath);
    }

    /** Records what came of an attempt; one of an earlier run changes nothing. */
    method Record(o: Attempt)
      requires Valid()
      modifies this
      ensures Valid() && run == old(run) && next == old(next)
      ensures history == if o.run != 0 && o.run != old(run) then old(history) else old(history) + [o]
      ensures o.run == 0 || o.run == old(run) ==> SampledNext(old(samples), o, samples) && total == old(total) + 1
      ensures o.run != 0 && o.run != old(run) ==> samples == old(samples) && total == old(total)
    {
      hide CodesCounted; hide PathsCounted; hide Retained; hide Trim; hide Room; hide Paths; hide SampledNext;
      if o.run != 0 && o.run != run {
        return;
      }
      RecordedNext(history, o);
      RetainedNext(history, o);
      CodesNext(byCode, history, o);
      RoomCounted(paths, samples, o.path);
      PathsNext(paths, samples, Trim(o));
      TrimKeepsPath(o);
      total := total + 1;
      byCode := byCode[o.code := Count(byCode, o.code) + 1];
      history := history + [o];
      var count := Count(paths, o.path);
      if (o.path !in paths && |paths| == MAX_PATHS) || count >= MAX_PATH_SAMPLES || |samples| == MAX_SAMPLES {
        dropped := dropped + 1;
        return;
      }
      paths := paths[o.path := count + 1];
      samples := samples + [Trim(o)];
    }

    lemma TrimKeepsPath(o: Attempt)
      ensures Trim(o).path == o.path
    {
    }

    /** The retained sample of an attempt, found from the back. */
    method Find(id: nat) returns (o: Option<Attempt>)
      ensures o == Lookup(samples, id)
    {
      if id == 0 {
        return None;
      }
      var i := |samples|;
      assert samples[..i] == samples;
      while i > 0
        invariant 0 <= i <= |samples| && Lookup(samples, id) == Lookup(samples[..i], id)
      {
        i := i - 1;
        if samples[i].id == id {
          return Some(samples[i]);
        }
        assert samples[..i + 1][..i] == samples[..i];
      }
      return None;
    }
  }

  function Announced(run: nat, id: nat, path: Option<string>, parent: nat, payload: string,
                     unknownPath: (nat, nat) -> string): Attempt {
    Attempt(run, id, parent, if path.Some? then path.value else unknownPath(run, id), path.None?,
            "unknown", payload, "", "", "", false)
  }

  // ---------------------------------------------------------------------------------------------
  // Attempts that begin and end in any order
  // ---------------------------------------------------------------------------------------------

  /** What a caller may do: announce an attempt, record what came of one, or start a new run. */
  datatype Event =
    | Announce(path: Option<string>, parent: nat, payload: string)
    | Finish(attempt: nat, code: string, snippet: string, error: string)
    | StartOver

  /** The log and its callers: `begun` holds every attempt ever announced, `ended` those recorded already. */
  datatype Session = Session(run: nat, next: nat, history: seq<Attempt>, begun: seq<Attempt>, ended: set<nat>)

  const FRESH: Session := Session(0, 0, [], [], {})

  function Apply(s: Session, e: Event, unknownPath: (nat, nat) -> string): Session {
    match e
    case Announce(path, parent, payload) =>
      var run := if s.run == 0 then 1 else s.run;
      s.(run := run, next := s.next + 1,
         begun := s.begun + [Announced(run, s.next + 1, path, parent, payload, unknownPath)])
    case Finish(i, code, snippet, error) =>
      if i >= |s.begun| || i in s.ended then s   // every attempt is recorded at most once
      else
        var o := s.begun[i].(code := code, snippet := snippet, error := error);
        s.(history := if o.run != 0 && o.run != s.run then s.history else s.history + [o], ended := s.ended + {i})
    case StartOver => s.(run := s.run + 1, next := 0, history := [])
  }

  function Play(events: seq<Event>, unknownPath: (nat, nat) -> string): Session {
    if events == [] then FRESH
    else Apply(Play(events[..|events| - 1], unknownPath), events[|events| - 1], unknownPath)
  }

  /** Ids are given out once per run, and the history holds attempts of this run only, each once. */
  ghost predicate Inv(s: Session) {
    && (s.run == 0 ==> s.next == 0 && s.begun == [])
    && (forall i :: 0 <= i < |s.begun| ==> 1 <= s.begun[i].run <= s.run && 1 <= s.begun[i].id)
    && (forall i :: 0 <= i < |s.begun| && s.begun[i].run == s.run ==> s.begun[i].id <= s.next)
    && (forall i, j :: 0 <= i < j < |s.begun| && s.begun[i].run == s.begun[j].run ==> s.begun[i].id != s.begun[j].id)
    && (forall j :: 0 <= j < |s.history| ==> FromAttempt(s, s.history[j]))
    && (forall j, k :: 0 <= j < k < |s.history| ==> s.history[j].id != s.history[k].id)
  }

  ghost predicate FromAttempt(s: Session, o: Attempt) {
    exists i :: i in s.ended && i < |s.begun| && s.begun[i].run == o.run == s.run && s.begun[i].id == o.id
  }

  lemma InvAnnounce(s: Session, e: Event, unknownPath: (nat, nat) -> string)
    requires Inv(s) && e.Announce?
    ensures Inv(Apply(s, e, unknownPath))
  {
    var s' := Apply(s, e, unknownPath);
    forall j | 0 <= j < |s'.history| ensures FromAttempt(s', s'.history[j]) {
      StillFromAttempt(s, s', s.history[j]);
    }
  }

  lemma InvFinish(s: Session, e: Event, unknownPath: (nat, nat) -> string)
    requires Inv(s) && e.Finish?
    ensures Inv(Apply(s, e, unknownPath))
  {
    var i := e.attempt;
    if i < |s.begun| && i !in s.ended {
      var o := s.begun[i].(code := e.code, snippet := e.snippet, error := e.error);
      InvEnded(s, i);
      if o.run == 0 || o.run == s.run {
        InvRecorded(s.(ended := s.ended + {i}), i, o, s.ended);
      }
    }
  }

  lemma InvEnded(s: Session, i: nat)
    requires Inv(s)
    ensures Inv(s.(ended := s.ended + {i}))
  {
    var s' := s.(ended := s.ended + {i});
    forall j | 0 <= j < |s.history| ensures FromAttempt(s', s.history[j]) {
      StillFromAttempt(s, s', s.history[j]);
    }
  }

  lemma InvRecorded(s: Session, i: nat, o: Attempt, before: set<nat>)
    requires Inv(s) && i < |s.begun| && i !in before && s.ended == before + {i}
    requires o.run == s.begun[i].run == s.run && o.id == s.begun[i].id
    requires forall j :: 0 <= j < |s.history| ==> FromAttempt(s.(ended := before), s.history[j])
    ensures Inv(s.(history := s.history + [o]))
  {
    var s' := s.(history := s.history + [o]);
    forall j | 0 <= j < |s.history| ensures s.history[j].id != o.id {
      OfAnotherAttempt(s, i, s.history[j], before);
    }
    forall j | 0 <= j < |s'.history| ensures FromAttempt(s', s'.history[j]) {
      if j < |s.history| {
        StillFromAttempt(s, s', s.history[j]);
      } else {
        assert i in s'.ended && s'.begun[i].id == o.id;
      }
    }
  }

  lemma OfAnotherAttempt(s: Session, i: nat, o: Attempt, before: set<nat>)
    requires Inv(s) && i < |s.begun| && s.begun[i].run == s.run && i !in before && FromAttempt(s.(ended := before), o)
    ensures o.id != s.begun[i].id
  {
    var k :| k in before && k < |s.begun| && s.begun[k].run == o.run == s.run && s.begun[k].id == o.id;
    assert s.begun[k].id != s.begun[i].id;
  }

  lemma StillFromAttempt(s: Session, s': Session, o: Attempt)
    requires FromAttempt(s, o) && s.ended <= s'.ended && s.begun <= s'.begun && (s.run != 0 ==> s'.run == s.run)
    requires forall i :: 0 <= i < |s.begun| ==> s.begun[i].run >= 1
    ensures FromAttempt(s', o)
  {
    var i :| i in s.ended && i < |s.begun| && s.begun[i].run == o.run == s.run && s.begun[i].id == o.id;
    assert s'.begun[i] == s.begun[i];
  }

  lemma InvApply(s: Session, e: Event, unknownPath: (nat, nat) -> string)
    requires Inv(s)
    ensures Inv(Apply(s, e, unknownPath))
  {
    if e.Announce? {
      InvAnnounce(s, e, unknownPath);
    } else if e.Finish? {
      InvFinish(s, e, unknownPath);
    }
  }

  lemma {:induction false} InvPlay(events: seq<Event>, unknownPath: (nat, nat) -> string)
    ensures Inv(Play(events, unknownPath))
  {
    if events != [] {
      InvPlay(events[..|events| - 1], unknownPath);
      InvApply(Play(events[..|events| - 1], unknownPath), events[|events| - 1], unknownPath);
    }
  }

  /** Every sample comes from an attempt in the history. */
  lemma {:induction false} RetainedFrom(history: seq<Attempt>, s: Attempt)
    requires s in Retained(history)
    ensures exists o :: o in history && s == Trim(o)
  {
    var init := history[..|history| - 1];
    if s in Retained(init) {
      RetainedFrom(init, s);
    } else {
      assert history[|history| - 1] in history;
    }
  }

  lemma {:induction false} LookupFinds(samples: seq<Attempt>, s: Attempt)
    requires s in samples && s.id != 0 && forall t :: t in samples && t.id == s.id ==> t == s
    ensures Lookup(samples, s.id) == Some(s)
  {
    var init := samples[..|samples| - 1];
    if samples[|samples| - 1].id != s.id {
      assert samples == init + [samples[|samples| - 1]];
      LookupFinds(init, s);
    } else {
      assert samples[|samples| - 1] in samples;
    }
  }

  lemma {:induction false} LookupMisses(samples: seq<Attempt>, id: nat)
    requires forall t :: t in samples ==> t.id != id
    ensures Lookup(samples, id) == None
  {
    if samples != [] {
      assert samples[|samples| - 1] in samples;
      LookupMisses(samples[..|samples| - 1], id);
    }
  }

  /**
   * Whatever the interleaving: looking up an attempt of this run that was recorded finds what was
   * kept of it and of no other, or nothing if it was dropped.
   */
  lemma RecordedIsExact(events: seq<Event>, unknownPath: (nat, nat) -> string, o: Attempt)
    requires o in Play(events, unknownPath).history
    ensures var samples := Retained(Play(events, unknownPath).history);
            Lookup(samples, o.id) == if Trim(o) in samples then Some(Trim(o)) else None
  {
    var s := Play(events, unknownPath);
    InvPlay(events, unknownPath);
    var samples := Retained(s.history);
    assert FromAttempt(s, o);
    forall t | t in samples && t.id == o.id ensures t == Trim(o) {
      RetainedFrom(s.history, t);
      var u :| u in s.history && t == Trim(u);
      SameIdSameAttempt(s, u, o);
    }
    if Trim(o) in samples {
      LookupFinds(samples, Trim(o));
    } else {
      LookupMisses(samples, o.id);
    }
  }

  lemma SameIdSameAttempt(s: Session, u: Attempt, o: Attempt)
    requires Inv(s) && u in s.history && o in s.history && u.id == o.id
    ensures u == o
  {
    var j :| 0 <= j < |s.history| && s.history[j] == u;
    var k :| 0 <= k < |s.history| && s.history[k] == o;
    assert !(j < k) && !(k < j);
  }

  /** A search finds a sample with the id exactly if there is one. */
  lemma {:induction false} LookupExactlyWhen(samples: seq<Attempt>, id: nat)
    requires id != 0
    ensures Lookup(samples, id).Some? <==> exists t :: t in samples && t.id == id
    ensures Lookup(samples, id).Some? ==> Lookup(samples, id).value in samples && Lookup(samples, id).value.id == id
  {
    if samples != [] {
      var init, last := samples[..|samples| - 1], samples[|samples| - 1];
      assert samples == init + [last];
      LookupExactlyWhen(init, id);
    }
  }

  /** Samples are of the current run. */
  lemma SampleIsOfThisRun(s: Session, t: Attempt)
    requires Inv(s) && t in Retained(s.history)
    ensures t.run == s.run
  {
    hide Retained;
    RetainedFrom(s.history, t);
    var u :| u in s.history && t == Trim(u);
    assert FromAttempt(s, u);
  }

  /**
   * Ids start again with every run, so looking up the id of an attempt of an earlier run finds another
   * attempt, one of the current run, exactly when the current run holds a sample with that id.
   */
  lemma EarlierIdsFindOthers(events: seq<Event>, unknownPath: (nat, nat) -> string, i: nat)
    requires var s := Play(events, unknownPath); i < |s.begun| && s.begun[i].run < s.run
    ensures var s := Play(events, unknownPath);
            var o, samples := s.begun[i], Retained(s.history);
            && (Lookup(samples, o.id).Some? <==> exists t :: t in samples && t.id == o.id)
            && (Lookup(samples, o.id).Some? ==>
                  var t := Lookup(samples, o.id).value;
                  t in samples && t.id == o.id && t.run == s.run != o.run)
  {
    hide Play; hide Retained; hide Lookup;
    var s := Play(events, unknownPath);
    InvPlay(events, unknownPath);
    var o, samples := s.begun[i], Retained(s.history);
    LookupExactlyWhen(samples, o.id);
    if Lookup(samples, o.id).Some? {
      SampleIsOfThisRun(s, Lookup(samples, o.id).value);
    }
  }

  /** An attempt of this run that was not recorded yet is not found. */
  lemma UnrecordedIsNotFound(events: seq<Event>, unknownPath: (nat, nat) -> string, i: nat)
    requires var s := Play(events, unknownPath); i < |s.begun| && s.begun[i].run == s.run && i !in s.ended
    ensures Lookup(Retained(Play(events, unknownPath).history), Play(events, unknownPath).begun[i].id) == None
  {
    hide Play; hide Retained; hide Lookup; hide Inv;
    var s := Play(events, unknownPath);
    InvPlay(events, unknownPath);
    forall t | t in Retained(s.history) ensures t.id != s.begun[i].id {
      NotYetSampled(s, i, t);
    }
    LookupMisses(Retained(s.history), s.begun[i].id);
  }

  lemma NotYetSampled(s: Session, i: nat, t: Attempt)
    requires Inv(s) && i < |s.begun| && s.begun[i].run == s.run && i !in s.ended && t in Retained(s.history)
    ensures t.id != s.begun[i].id
  {
    hide Retained;
    RetainedFrom(s.history, t);
    var u :| u in s.history && t == Trim(u);
    assert FromAttempt(s, u);
    var j :| j in s.ended && j < |s.begun| && s.begun[j].run == u.run == s.run && s.begun[j].id == u.id;
    assert j != i && s.begun[j].id != s.begun[i].id;
  }

  /** A record of an earlier run changes nothing but the fact that it was made. */
  lemma LateRecordsAreIgnored(events: seq<Event>, unknownPath: (nat, nat) -> string, e: Event)
    requires var s := Play(events, unknownPath);
             e.Finish? && e.attempt < |s.begun| && s.begun[e.attempt].run < s.run
    ensures Play(events + [e], unknownPath).history == Play(events, unknownPath).history
    ensures Play(events + [e], unknownPath).next == Play(events, unknownPath).next
  {
    InvPlay(events, unknownPath);
    assert (events + [e])[..|events|] == events;
  }
}
