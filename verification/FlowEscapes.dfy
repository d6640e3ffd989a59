/**
 * What the analysis does not follow: an input that the program puts into a property, or that a function
 * keeps, may come back wherever the program meets a value. For both it is proved exactly when an input
 * is missed.
 */
module FlowEscapes {
  import opened Prelude
  import opened FlowSyntax
  import opened FlowSpec
  import opened FlowRuns
  import opened FlowSoundness
  import opened FlowLimits

  /** Every input that reaches a sink is reported at some sink. */
  ghost predicate NothingMissed(w: World, cfg: Script, program: seq<Stmt>) {
    forall f :: f in RunStmts(w, cfg, program, START).reached ==>
        f.source in SourcesOf(AbsStmts(cfg, program, EMPTY).flows)
  }

  /** The input an expression reads, as a run sees it. */
  function InputOf(cfg: Script, input: Expr): Source
    requires SourceKind(GlobalPath(input, {})).Some?
  {
    Source(SourceKind(GlobalPath(input, {})).value, "", Node(input).start - cfg.shift, Node(input).end - cfg.shift)
  }

  /** `first; document.write(back);` */
  function ThenWrite(first: Expr, at: Pos, inner: Pos, back: string): seq<Stmt> {
    [ExprStmt(first), ExprStmt(WriteCall(at, inner, Identifier(inner, back)))]
  }

  lemma ThenWriteRuns(w: World, cfg: Script, first: Expr, at: Pos, inner: Pos, back: string)
    ensures var c := RunExpr(w, cfg, first, START).after;
            RunStmts(w, cfg, ThenWrite(first, at, inner, back), START)
            == RunExpr(w, cfg, WriteCall(at, inner, Identifier(inner, back)), c).after
  {
    hide RunExpr;
    var list := ThenWrite(first, at, inner, back);
    assert list[..1] == [list[0]] && [list[0]][..0] == [];
    assert RunStmts(w, cfg, [list[0]], START) == RunExpr(w, cfg, first, START).after;
  }

  lemma ThenWriteSeen(cfg: Script, first: Expr, at: Pos, inner: Pos, back: string)
    requires AbsExpr(cfg, first, EMPTY).after.vars == [map[]] && SourceKind(back).None?
    ensures AbsStmts(cfg, ThenWrite(first, at, inner, back), EMPTY).flows == AbsExpr(cfg, first, EMPTY).after.flows
  {
    hide AbsExpr; hide AbsStmt;
    var list, a, x := ThenWrite(first, at, inner, back), AbsExpr(cfg, first, EMPTY).after, Identifier(inner, back);
    AbsStmtsNext(cfg, list, EMPTY, 0);
    AbsStmtsNext(cfg, list, EMPTY, 1);
    assert list[..0] == [] && list[..2] == list;
    AbsStmtCases(cfg, list[0], EMPTY);
    AbsStmtCases(cfg, list[1], a);
    NameSeen(cfg, x, a);
    assert Bound(a.vars) == {};
    WriteSeen(cfg, at, inner, x, [], a);
    RecordNone(cfg, a.flows, at, "document.write");
  }

  lemma NameSeen(cfg: Script, x: Expr, a: Abs)
    requires x.Identifier? && SourceKind(x.name).None? && a.vars == [map[]]
    ensures AbsExpr(cfg, x, a) == Outcome([], a)
  {
    NoInput(x, Bound(a.vars));
    UnboundHoldsNothing(a.vars, x.name);
  }

  lemma ThenWriteIsSupported(keeps: string -> bool, cfg: Script, first: Expr, at: Pos, inner: Pos, back: string)
    requires Supported(keeps, cfg, first, EMPTY) && AbsExpr(cfg, first, EMPTY).after.vars == [map[]]
    requires cfg.Inside(at) && SourceKind(back).None?
    ensures SupportedStmts(keeps, cfg, ThenWrite(first, at, inner, back), EMPTY)
  {
    hide Supported; hide AbsExpr;
    var list, a := ThenWrite(first, at, inner, back), AbsExpr(cfg, first, EMPTY).after;
    assert list[..1] == [list[0]] && [list[0]][..0] == [];
    assert AbsStmts(cfg, [list[0]], EMPTY) == a;
    assert SupportedStmts(keeps, cfg, [], EMPTY) && SupportedStmt(keeps, cfg, list[0], EMPTY);
    assert SupportedStmts(keeps, cfg, [list[0]], EMPTY);
    assert Bound(a.vars) == {} && a.vars[0].Values == {};
    WriteIsSupported(keeps, cfg, at, inner, back, a);
    assert SupportedStmt(keeps, cfg, list[1], a);
  }

  /** An input that was put outside comes back in a world where everything does, and reaches the page. */
  lemma ComesBack(w: World, cfg: Script, at: Pos, inner: Pos, back: string, c: Con, x: Source)
    requires SourceKind(back).None? && c.env == [map[]] && x in c.stored && forall now, y :: w.echoes(now, y)
    ensures Flow(x, "document.write", at.start - cfg.shift, at.end - cfg.shift)
            in RunExpr(w, cfg, WriteCall(at, inner, Identifier(inner, back)), c).after.reached
  {
    hide RunExpr; hide Reach;
    var e, d := Identifier(inner, back), c.Later();
    assert BoundNames(c.env) == {};
    NameRun(w, cfg, e, d);
    WriteRuns(w, cfg, at, inner, e, c);
    assert x in Echo(w, d);
    InReach(cfg, at, RunExpr(w, cfg, e, d).val.taint + Echo(w, RunExpr(w, cfg, e, d).after), x);
  }

  lemma InReach(cfg: Script, at: Pos, taint: set<Source>, x: Source)
    requires x in taint
    ensures Flow(x, "document.write", at.start - cfg.shift, at.end - cfg.shift) in Reach(cfg, at, "document.write",
          taint)
  {
  }

  /** If `first` puts an input outside and reports nothing, writing to the page loses it in some world. */
  lemma Missed(w: World, cfg: Script, first: Expr, at: Pos, inner: Pos, back: string, x: Source)
    requires SourceKind(back).None? && forall now, y :: w.echoes(now, y)
    requires var c := RunExpr(w, cfg, first, START).after; c.env == [map[]] && x in c.stored
    requires AbsExpr(cfg, first, EMPTY).after == EMPTY
    ensures !NothingMissed(w, cfg, ThenWrite(first, at, inner, back))
  {
    hide RunExpr; hide RunStmts; hide AbsExpr; hide AbsStmts;
    var c := RunExpr(w, cfg, first, START).after;
    ThenWriteRuns(w, cfg, first, at, inner, back);
    ThenWriteSeen(cfg, first, at, inner, back);
    ComesBack(w, cfg, at, inner, back, c, x);
    assert SourcesOf([]) == {};
  }

  /** An expression that reads an input, in a run and in the analysis. */
  lemma ReadsInput(w: World, cfg: Script, input: Expr, c: Con)
    requires SourceKind(GlobalPath(input, {})).Some? && cfg.Inside(Node(input))
    requires c.env == [map[]] && c.stored == {} && c.reached == {}
    ensures RunExpr(w, cfg, input, c).val.taint == {InputOf(cfg, input)} && RunExpr(w, cfg, input, c).after == c.Later()
    ensures AbsExpr(cfg, input, EMPTY) == Outcome([InputOf(cfg, input)], EMPTY)
  {
    hide GlobalPath; hide SourceKind; hide Echo;
    assert BoundNames(c.env) == {} && Bound(EMPTY.vars) == {};
    assert GlobalTaint(c.env, "name") == {};
    NothingEchoes(w, c);
  }

  // ---------------------------------------------------------------------------------------------
  // A property
  // ---------------------------------------------------------------------------------------------

  /** `target = input` */
  function PropertyStore(at: Pos, target: Expr, input: Expr): Expr {
    Assign(at, false, target, input)
  }

  lemma PropertyStoreRuns(w: World, cfg: Script, at: Pos, target: Expr, input: Expr)
    requires !target.Identifier? && SourceKind(GlobalPath(input, {})).Some? && cfg.Inside(Node(input))
    ensures var c := RunExpr(w, cfg, PropertyStore(at, target, input), START).after;
            c.env == [map[]] && InputOf(cfg, input) in c.stored
  {
    hide GlobalPath; hide SourceKind; hide Echo; hide Reach;
    NoInput(PropertyStore(at, target, input), BoundNames(START.env));
    ReadsInput(w, cfg, input, START.Later());
  }

  lemma PropertyStoreSeen(cfg: Script, at: Pos, target: Expr, input: Expr)
    requires !target.Identifier? && SourceKind(GlobalPath(input, {})).Some? && cfg.Inside(Node(input))
    ensures AbsExpr(cfg, PropertyStore(at, target, input), EMPTY).after
            == AbsStore(cfg, target, [InputOf(cfg, input)], EMPTY)
    ensures AbsExpr(cfg, PropertyStore(at, target, input), EMPTY).after.vars == [map[]]
  {
    hide GlobalPath; hide SourceKind; hide AbsExpr;
    AbsExprCases(cfg, PropertyStore(at, target, input), EMPTY);
    AbsExprCases(cfg, input, EMPTY);
    assert Bound(EMPTY.vars) == {};
  }

  lemma PropertyStoreIsSupported(keeps: string -> bool, cfg: Script, at: Pos, target: Expr, input: Expr)
    requires PlainReference(target) && Member(target).Some? && SinkProperty(Member(target).value.1)
    requires Reportable(cfg, Node(target))
    requires SourceKind(GlobalPath(input, {})).Some? && cfg.Inside(Node(input))
    ensures Supported(keeps, cfg, PropertyStore(at, target, input), EMPTY)
  {
    hide GlobalPath; hide SourceKind; hide Record; hide AbsExpr;
    var x := InputOf(cfg, input);
    NoInput(PropertyStore(at, target, input), {});
    assert Bound(EMPTY.vars) == {};
    AbsExprCases(cfg, input, EMPTY);
    RecordReports(cfg, [], Node(target), Member(target).value.1, [x]);
  }

  /**
   * A program that stores an input in a property and then writes some value met outside into the page:
   * the input may come back and reach the page without being reported at any sink, unless the property
   * is itself a sink. So no input is ever missed if and only if the property is one.
   */
  lemma PropertyStoreIsFollowedExactlyWhen(w: World, cfg: Script, at: Pos, inner: Pos, target: Expr, input: Expr,
                                           back: string)
    requires PlainReference(target) && Member(target).Some? && Reportable(cfg, Node(target)) && cfg.Inside(at)
    requires SourceKind(GlobalPath(input, {})).Some? && cfg.Inside(Node(input)) && SourceKind(back).None?
    ensures var program := ThenWrite(PropertyStore(at, target, input), at, inner, back);
            (forall echoes: (nat, Source) -> bool :: NothingMissed(w.(echoes := echoes), cfg, program))
            <==> SinkProperty(Member(target).value.1)
  {
    hide RunExpr; hide RunStmts; hide AbsExpr; hide AbsStmts; hide Supported; hide SupportedStmts; hide GlobalPath;
    hide NothingMissed; hide SourceKind;
    var first := PropertyStore(at, target, input);
    var program := ThenWrite(first, at, inner, back);
    PropertyStoreSeen(cfg, at, target, input);
    if SinkProperty(Member(target).value.1) {
      PropertyStoreIsSupported(w.keeps, cfg, at, target, input);
      ThenWriteIsSupported(w.keeps, cfg, first, at, inner, back);
      forall echoes: (nat, Source) -> bool ensures NothingMissed(w.(echoes := echoes), cfg, program) {
        SupportedMissesNothing(w.(echoes := echoes), cfg, program);
      }
    } else {
      var all := w.(echoes := (now, x) => true);
      PropertyStoreRuns(all, cfg, at, target, input);
      Missed(all, cfg, first, at, inner, back, InputOf(cfg, input));
      assert !NothingMissed(w.(echoes := all.echoes), cfg, program);
    }
  }

  lemma SupportedMissesNothing(w: World, cfg: Script, program: seq<Stmt>)
    requires SupportedStmts(w.keeps, cfg, program, EMPTY)
    ensures NothingMissed(w, cfg, program)
  {
    hide RunStmts; hide AbsStmts; hide SupportedStmts;
    FlowsCoverEveryRun(w, cfg, program);
  }

  // ---------------------------------------------------------------------------------------------
  // A function that keeps what it is given
  // ---------------------------------------------------------------------------------------------

  /** `name(input)` */
  function Hand(at: Pos, name: string, input: Expr): Expr {
    Call(at, Identifier(at, name), [input])
  }

  lemma HandRuns(w: World, cfg: Script, at: Pos, name: string, input: Expr)
    requires SourceKind(GlobalPath(input, {})).Some? && cfg.Inside(Node(input)) && w.keeps(name)
    ensures var c := RunExpr(w, cfg, Hand(at, name, input), START).after;
            c.env == [map[]] && InputOf(cfg, input) in c.stored
  {
    hide GlobalPath; hide SourceKind; hide RunExpr; hide Echo; hide CallSinks; hide StorageRead;
    var e, x := Hand(at, name, input), InputOf(cfg, input);
    CallRun(w, cfg, e, START);
    ReadsInput(w, cfg, input, START.Later());
    OneRun(w, cfg, input, START.Later());
    var r := RunExpr(w, cfg, input, START.Later());
    OneMet(w, r.val, r.after);
    NoStorage(e, BoundNames(r.after.env));
  }

  lemma NoStorage(e: Expr, bound: set<string>)
    requires e.Call? && e.callee.Identifier?
    ensures StorageRead(e, bound).None?
  {
  }

  lemma HandSeen(keeps: string -> bool, cfg: Script, at: Pos, name: string, input: Expr)
    requires SourceKind(GlobalPath(input, {})).Some? && cfg.Inside(Node(input)) && cfg.Inside(at)
    requires name != "" && !SinkFunction(name) && !TimerFunction(name) && name !in cfg.functions
    ensures AbsExpr(cfg, Hand(at, name, input), EMPTY).after == EMPTY
    ensures !keeps(name) ==> Supported(keeps, cfg, Hand(at, name, input), EMPTY)
  {
    hide SourceKind; hide AbsExpr; hide AbsList; hide Supported; hide SinkFunction; hide TimerFunction;
    var e := Hand(at, name, input);
    assert Bound(EMPTY.vars) == {};
    AbsExprCases(cfg, input, EMPTY);
    OneInput(keeps, cfg, input);
    AbsExprCases(cfg, e, EMPTY);
    AbsCallCases(cfg, e, EMPTY);
    NoStorage(e, Bound(EMPTY.vars));
    assert AbsCallAfter(cfg, e, AbsList(cfg, e.args, EMPTY)).after == EMPTY;
    if !keeps(name) {
      CallIsSupported(keeps, cfg, e, EMPTY);
    }
  }

  lemma OneInput(keeps: string -> bool, cfg: Script, input: Expr)
    requires SourceKind(GlobalPath(input, {})).Some? && cfg.Inside(Node(input))
    ensures SupportedList(keeps, cfg, [input], EMPTY) && AbsList(cfg, [input], EMPTY).after == EMPTY
  {
    hide SourceKind; hide GlobalPath;
    assert Bound(EMPTY.vars) == {};
    AbsListNext(cfg, [input], EMPTY, 0);
    assert [input][..0] == [] && [input][..1] == [input];
  }

  /**
   * A program that hands an input to a function and then writes some value met outside into the page:
   * no input is ever missed if and only if the function keeps nothing.
   */
  lemma HandingOverIsFollowedExactlyWhen(w: World, cfg: Script, at: Pos, inner: Pos, name: string, input: Expr,
                                         back: string)
    requires SourceKind(GlobalPath(input, {})).Some? && cfg.Inside(Node(input)) && cfg.Inside(at)
    requires name != "" && !SinkFunction(name) && !TimerFunction(name) && SourceKind(back).None?
    requires name !in cfg.functions
    ensures var program := ThenWrite(Hand(at, name, input), at, inner, back);
            (forall echoes: (nat, Source) -> bool :: NothingMissed(w.(echoes := echoes), cfg, program)) <==>
                !w.keeps(name)
  {
    hide RunExpr; hide RunStmts; hide AbsExpr; hide AbsStmts; hide Supported; hide SupportedStmts; hide GlobalPath;
    hide NothingMissed; hide SourceKind; hide SinkFunction; hide TimerFunction;
    var first := Hand(at, name, input);
    var program := ThenWrite(first, at, inner, back);
    HandSeen(w.keeps, cfg, at, name, input);
    if !w.keeps(name) {
      ThenWriteIsSupported(w.keeps, cfg, first, at, inner, back);
      forall echoes: (nat, Source) -> bool ensures NothingMissed(w.(echoes := echoes), cfg, program) {
        SupportedMissesNothing(w.(echoes := echoes), cfg, program);
      }
    } else {
      var all := w.(echoes := (now, x) => true);
      HandRuns(all, cfg, at, name, input);
      Missed(all, cfg, first, at, inner, back, InputOf(cfg, input));
      assert !NothingMissed(w.(echoes := all.echoes), cfg, program);
    }
  }
}
