/**
 * Two programs at the edge of what is claimed. In the first the outside world changes its answers during
 * the run and an input takes a way that needs both. In the second the analysis stops seeing: a storage
 * entry read under a key of more than 128 bytes is not a source.
 */
module FlowLimits {
  import opened Prelude
  import opened FlowSyntax
  import opened FlowSpec
  import opened FlowRuns
  import opened FlowSoundness

  // ---------------------------------------------------------------------------------------------
  // A program that asks twice
  // ---------------------------------------------------------------------------------------------

  /** `coin()`, a function of which nothing is known. */
  function Coin(at: Pos): Expr {
    Call(at, Identifier(at, "coin"), [])
  }

  /** `if (coin()) x = location.hash;` */
  function FirstAsk(at: Pos): Stmt {
    If(Coin(at), ExprStmt(Assign(at, false, Identifier(at, "x"), Dot(at, Identifier(at, "location"), "hash"))), NoStmt)
  }

  /** `if (coin()) ; else document.write(x);` */
  function SecondAsk(at: Pos): Stmt {
    If(Coin(at), NoStmt, ExprStmt(WriteCall(at, at, Identifier(at, "x"))))
  }

  lemma NothingEchoes(w: World, c: Con)
    requires c.stored == {} && c.reached == {}
    ensures Echo(w, c) == {} && Echo(w, c.Later()) == {}
  {
  }

  /** A call of `coin`, which keeps nothing, asks the world at its own moment and changes nothing else. */
  lemma CoinRun(w: World, cfg: Script, at: Pos, c: Con)
    requires c.env != [] && "coin" !in BoundNames(c.env) && c.stored == {} && c.reached == {} && !w.keeps("coin")
    ensures RunExpr(w, cfg, Coin(at), c) == Delivery(Val(w.call(c.clock, "coin", []), {}), c.(clock := c.clock + 3))
  {
    hide Echo;
    var e, d := Coin(at), c.Later();
    CallRun(w, cfg, e, c);
    assert RunList(w, cfg, [], d) == Deliveries([], d);
    assert GlobalPath(e.callee, BoundNames(c.env)) == "coin";
    NothingEchoes(w, d);
    assert MeetAll(w, [], d) == [] && Datas([]) == [] && Taints([]) == {};
    assert CallSinks(cfg, e, "coin", [], {}) == {};
    assert c.reached + {} == c.reached && c.stored + {} == c.stored;
    assert Taints([]) + {} == {} && {} + Echo(w, d.Later()) == {};
  }

  /** The input as the run sees it. */
  function Hash(cfg: Script, at: Pos): Source {
    Source("fragment", "", at.start - cfg.shift, at.end - cfg.shift)
  }

  /** A conditional statement whose branches are expressions. */
  lemma IfRun(w: World, cfg: Script, s: Stmt, c: Con)
    requires c.env != [] && !c.returned && s.If?
    ensures var t := RunExpr(w, cfg, s.test, c);
            var taken := if w.Truthy(t.val.data) then s.consequent else s.alternate;
            && (taken.ExprStmt? ==> RunStmt(w, cfg, s, c) == RunExpr(w, cfg, taken.value, t.after).after)
            && (taken.NoStmt? ==> RunStmt(w, cfg, s, c) == t.after)
  {
    hide RunExpr;
    var t := RunExpr(w, cfg, s.test, c);
    var taken := if w.Truthy(t.val.data) then s.consequent else s.alternate;
    assert RunStmt(w, cfg, s, c) == RunStmt(w, cfg, taken, t.after);
  }

  /** `x = location.hash` stores the input. */
  lemma StoreHash(w: World, cfg: Script, at: Pos, c: Con)
    requires |c.env| == 1 && c.env[0].Keys == {"x"} && c.reached == {} && c.stored == {}
    ensures var r := RunExpr(w, cfg, FirstAsk(at).consequent.value, c).after;
            && r.reached == c.reached && r.stored == c.stored && r.returned == c.returned && |r.env| == 1
            && r.env[0].Keys == {"x"} && r.env[0]["x"].taint == {Hash(cfg, at)} && r.clock == c.clock + 2
  {
    hide Echo;
    var e, d := FirstAsk(at).consequent.value, c.Later();
    NoInput(e, BoundNames(c.env));
    HashRun(w, cfg, at, d);
    assert RunExpr(w, cfg, e, c).after
        == Store(w, cfg, Identifier(at, "x"), RunExpr(w, cfg, e.right, d).val, d.Later());
    assert c.env[1..] == [];
  }

  /** `location.hash` delivers the input. */
  lemma HashRun(w: World, cfg: Script, at: Pos, c: Con)
    requires |c.env| == 1 && c.env[0].Keys == {"x"} && c.reached == {} && c.stored == {}
    ensures var r := RunExpr(w, cfg, Dot(at, Identifier(at, "location"), "hash"), c);
            r.after == c.Later() && r.val.taint == {Hash(cfg, at)}
  {
    hide Echo;
    var e := Dot(at, Identifier(at, "location"), "hash");
    assert BoundNames(c.env) == {"x"};
    assert GlobalPath(Identifier(at, "location"), {"x"}, 1) == "location";
    assert GlobalPath(e, {"x"}) == "location" + "." + "hash" == "location.hash";
    NothingEchoes(w, c);
  }

  lemma FirstRun(w: World, cfg: Script, at: Pos, c: Con)
    requires !c.returned && |c.env| == 1 && c.env[0].Keys == {"x"} && c.reached == {} && c.stored == {}
             && !w.keeps("coin")
    requires w.Truthy(w.call(c.clock, "coin", []))
    ensures var r := RunStmt(w, cfg, FirstAsk(at), c);
            !r.returned && |r.env| == 1 && r.env[0].Keys == {"x"} && r.env[0]["x"].taint == {Hash(cfg, at)}
            && r.reached == {} && r.stored == {} && r.clock == c.clock + 5
  {
    hide RunExpr; hide RunStmt;
    assert BoundNames(c.env) == {"x"};
    CoinRun(w, cfg, at, c);
    IfRun(w, cfg, FirstAsk(at), c);
    StoreHash(w, cfg, at, c.(clock := c.clock + 3));
  }

  /** `document.write(x)` sends what `x` was computed from to the page. */
  lemma WriteVariable(w: World, cfg: Script, at: Pos, c: Con)
    requires |c.env| == 1 && c.env[0].Keys == {"x"} && c.reached == {} && c.stored == {}
    ensures RunExpr(w, cfg, WriteCall(at, at, Identifier(at, "x")), c).after.reached
         == Reach(cfg, at, "document.write", c.env[0]["x"].taint)
  {
    hide Reach; hide RunExpr; hide Echo;
    var x, d := Identifier(at, "x"), c.Later();
    assert BoundNames(c.env) == {"x"};
    NothingEchoes(w, d);
    NameRun(w, cfg, x, d);
    WriteRuns(w, cfg, at, at, x, c);
    var taint := c.env[0]["x"].taint;
    assert taint + {} + {} == taint
        && {} + Reach(cfg, at, "document.write", taint) == Reach(cfg, at, "document.write", taint);
  }

  /** A name is met with what the variable was computed from. */
  lemma NameRun(w: World, cfg: Script, e: Expr, c: Con)
    requires e.Identifier? && SourceKind(e.name).None? && c.env != []
    ensures RunExpr(w, cfg, e, c) == Meet(w, Read(w, c.clock, c.env, e.name), c)
    ensures RunExpr(w, cfg, e, c).val.taint == TaintOf(c.env, e.name) + Echo(w, c)
  {
    hide Echo;
    NoInput(e, BoundNames(c.env));
    ReadTaint(w, c.clock, c.env, e.name);
  }

  lemma SecondRun(w: World, cfg: Script, at: Pos, c: Con)
    requires !c.returned && |c.env| == 1 && c.env[0].Keys == {"x"} && c.reached == {} && c.stored == {}
             && !w.keeps("coin")
    requires !w.Truthy(w.call(c.clock, "coin", []))
    ensures RunStmt(w, cfg, SecondAsk(at), c).reached == Reach(cfg, at, "document.write", c.env[0]["x"].taint)
  {
    hide RunExpr; hide RunStmt; hide Reach;
    assert BoundNames(c.env) == {"x"};
    CoinRun(w, cfg, at, c);
    IfRun(w, cfg, SecondAsk(at), c);
    WriteVariable(w, cfg, at, c.(clock := c.clock + 3));
  }

  lemma TwoRuns(w: World, cfg: Script, first: Stmt, second: Stmt, c: Con)
    requires c.env != []
    ensures RunStmts(w, cfg, [first, second], c) == RunStmt(w, cfg, second, RunStmt(w, cfg, first, c))
  {
    hide RunStmt;
    var list := [first, second];
    assert list[..1] == [first] && [first][..0] == [];
    assert RunStmts(w, cfg, [first], c) == RunStmt(w, cfg, first, c);
  }

  /** A call of `coin` is supported if it keeps nothing, and the analysis leaves everything as it is. */
  lemma CoinIsSupported(keeps: string -> bool, cfg: Script, at: Pos, a: Abs)
    requires cfg.Inside(at) && |a.vars| == 1 && a.vars[0].Keys == {"x"} && !keeps("coin")
    requires "coin" !in cfg.functions
    ensures Supported(keeps, cfg, Coin(at), a) && AbsExpr(cfg, Coin(at), a) == Outcome([], a)
  {
    assert Bound(a.vars) == {"x"};
    CallHasNoPath(Coin(at), Bound(a.vars));
    assert GlobalPath(Identifier(at, "coin"), {"x"}) == "coin";
    assert AbsList(cfg, [], a) == Outcomes([], a);
    AbsExprCases(cfg, Coin(at), a);
    AbsCallCases(cfg, Coin(at), a);
    assert !SinkFunction("coin") && !TimerFunction("coin");
  }

  /** Storing the input is supported and binds no new name. */
  lemma StoreIsSupported(keeps: string -> bool, cfg: Script, at: Pos, a: Abs)
    requires cfg.Inside(at) && |a.vars| == 1 && a.vars[0].Keys == {"x"}
    ensures var e := FirstAsk(at).consequent.value;
            Supported(keeps, cfg, e, a) && |AbsExpr(cfg, e, a).after.vars| == 1
                && AbsExpr(cfg, e, a).after.vars[0].Keys == {"x"}
  {
    var e := FirstAsk(at).consequent.value;
    assert Bound(a.vars) == {"x"};
    assert GlobalPath(Identifier(at, "location"), {"x"}, 1) == "location";
    assert GlobalPath(e.right, {"x"}) == "location" + "." + "hash" == "location.hash";
    assert GlobalPath(e, {"x"}) == "" && SourceKind("").None?;
    assert Supported(keeps, cfg, e.right, a);
    assert AbsExpr(cfg, e.right, a).after == a;
    AbsExprCases(cfg, e, a);
  }

  lemma FirstIsSupported(keeps: string -> bool, cfg: Script, at: Pos, a: Abs)
    requires cfg.Inside(at) && |a.vars| == 1 && a.vars[0].Keys == {"x"} && !keeps("coin")
    requires "coin" !in cfg.functions
    ensures SupportedStmt(keeps, cfg, FirstAsk(at), a)
    ensures |AbsStmt(cfg, FirstAsk(at), a).vars| == 1 && AbsStmt(cfg, FirstAsk(at), a).vars[0].Keys == {"x"}
  {
    hide AbsExpr; hide Supported;
    var e := FirstAsk(at).consequent.value;
    CoinIsSupported(keeps, cfg, at, a);
    StoreIsSupported(keeps, cfg, at, a);
    AbsStmtCases(cfg, FirstAsk(at), a);
    AbsStmtCases(cfg, ExprStmt(e), a);
  }

  /**
   * Writing a variable into the page is supported, even if `document.write` keeps it, since it reports
   * what it writes; here no other variable carries an input.
   */
  lemma WriteIsSupported(keeps: string -> bool, cfg: Script, at: Pos, inner: Pos, name: string, a: Abs)
    requires cfg.Inside(at) && a.vars != [] && "document" !in Bound(a.vars) && SourceKind(name).None?
    requires a.vars[|a.vars| - 1].Values <= {Lookup(a.vars, name)}
    ensures Supported(keeps, cfg, WriteCall(at, inner, Identifier(inner, name)), a)
  {
    hide AbsExpr; hide AbsCallAfter; hide AbsList; hide GlobalPath; hide Supported; hide SupportedList;
    var e, x := WriteCall(at, inner, Identifier(inner, name)), Identifier(inner, name);
    OneName(keeps, cfg, x, a);
    WriteIsSupportedAfter(keeps, cfg, at, inner, x, AbsList(cfg, e.args, a), a);
    CallIsSupported(keeps, cfg, e, a);
  }

  lemma CallIsSupported(keeps: string -> bool, cfg: Script, e: Expr, a: Abs)
    requires e.Call? && a.vars != [] && SupportedList(keeps, cfg, e.args, a)
    requires SupportedCall(keeps, cfg, e, AbsList(cfg, e.args, a))
    ensures Supported(keeps, cfg, e, a)
  {
    hide SupportedCall; hide SupportedList; hide AbsList;
    CallHasNoPath(e, Bound(a.vars));
  }

  /** A name as the only argument. */
  lemma OneName(keeps: string -> bool, cfg: Script, x: Expr, a: Abs)
    requires x.Identifier? && SourceKind(x.name).None? && a.vars != []
    ensures SupportedList(keeps, cfg, [x], a) && AbsList(cfg, [x], a) == Outcomes([Lookup(a.vars, x.name)], a)
  {
    NoInput(x, Bound(a.vars));
    AbsListNext(cfg, [x], a, 0);
    assert [x][..0] == [] && [x][..1] == [x];
    NoArguments(cfg, a);
    assert AbsExpr(cfg, x, a) == Outcome(Lookup(a.vars, x.name), a);
    assert [] + [Lookup(a.vars, x.name)] == [Lookup(a.vars, x.name)];
  }

  lemma WriteIsSupportedAfter(keeps: string -> bool, cfg: Script, at: Pos, inner: Pos, x: Expr, args: Outcomes, a: Abs)
    requires cfg.Inside(at) && a.vars != [] && "document" !in Bound(a.vars) && x.Identifier?
    requires args == Outcomes([Lookup(a.vars, x.name)], a)
    requires a.vars[|a.vars| - 1].Values <= {Lookup(a.vars, x.name)}
    ensures SupportedCall(keeps, cfg, WriteCall(at, inner, x), args)
  {
    hide GlobalPath; hide Record; hide Lookup;
    var e, document, value := WriteCall(at, inner, x), Identifier(inner, "document"), Lookup(a.vars, x.name);
    var y := AbsCallAfter(cfg, e, args);
    DocumentPath(inner, Bound(a.vars));
    UnboundHoldsNothing(a.vars, "document");
    assert AbsExpr(cfg, document, a).value == [];
    JoinNone(JoinAll([value]));
    assert y.value == JoinAll([value]);
    assert y.after.flows == Record(cfg, a.flows, at, "document.write", y.value);
    assert AllReported(y.value, y.after.flows) by {
      RecordReports(cfg, a.flows, at, "document.write", y.value);
    }
    assert forall s :: s in value ==> s in y.value by {
      assert value in [value];
    }
    assert PlainReference(e.callee) && Member(e.callee) == Some((document, "write"));
    assert StorageRead(e, Bound(a.vars)).None?;
    assert SupportedRef(cfg, document, a.vars);
    assert GlobalPath(e.callee, Bound(a.vars)) != "";
    assert AllReported(value, y.after.flows);
  }

  lemma RecordReports(cfg: Script, flows: seq<Flow>, at: Pos, sink: string, value: seq<Source>)
    requires Reportable(cfg, at)
    ensures AllReported(value, Record(cfg, flows, at, sink, value))
  {
    var all := Record(cfg, flows, at, sink, value);
    forall s | s in value ensures s in SourcesOf(all) {
      assert Flow(s, sink, at.start - cfg.shift, at.end - cfg.shift) in all;
    }
  }

  lemma SecondIsSupported(keeps: string -> bool, cfg: Script, at: Pos, a: Abs)
    requires cfg.Inside(at) && |a.vars| == 1 && a.vars[0].Keys == {"x"} && !keeps("coin")
    requires "coin" !in cfg.functions
    ensures SupportedStmt(keeps, cfg, SecondAsk(at), a)
  {
    hide AbsExpr; hide Supported;
    CoinIsSupported(keeps, cfg, at, a);
    AbsStmtCases(cfg, NoStmt, a);
    var b := a.(flows := AbsStmt(cfg, NoStmt, a).flows);
    assert Lookup(b.vars, "x") == b.vars[0]["x"] && b.vars[0].Values == {b.vars[0]["x"]};
    assert Bound(b.vars) == {"x"} && SourceKind("x").None?;
    WriteIsSupported(keeps, cfg, at, at, "x", b);
  }

  lemma BothAreSupported(keeps: string -> bool, cfg: Script, at: Pos, a: Abs)
    requires cfg.Inside(at) && |a.vars| == 1 && a.vars[0].Keys == {"x"} && !keeps("coin")
    requires "coin" !in cfg.functions
    ensures SupportedStmts(keeps, cfg, [FirstAsk(at), SecondAsk(at)], a)
  {
    hide SupportedStmt; hide AbsStmt;
    var list := [FirstAsk(at), SecondAsk(at)];
    assert list[..1] == [FirstAsk(at)] && [FirstAsk(at)][..0] == [];
    FirstIsSupported(keeps, cfg, at, a);
    AbsStmtsNext(cfg, list, a, 0);
    SecondIsSupported(keeps, cfg, at, AbsStmt(cfg, FirstAsk(at), a));
    assert SupportedStmts(keeps, cfg, [FirstAsk(at)], a);
  }

  /**
   * With `x` declared, a world that answers yes the first time and no the second sends the input to
   * the page, and the analysis reports it: soundness covers worlds that change their mind.
   */
  lemma AnswersMayChange(w: World, cfg: Script, at: Pos, c: Con, a: Abs)
    requires cfg.Inside(at) && |a.vars| == 1 && a.vars[0].Keys == {"x"} && Covers(w, a, c)
    requires !c.returned && c.env[0].Keys == {"x"} && c.reached == {} && c.stored == {}
    requires !w.keeps("coin") && !w.Echoing() && "coin" !in cfg.functions
    requires w.Truthy(w.call(c.clock, "coin", [])) && !w.Truthy(w.call(c.clock + 5, "coin", []))
    ensures var f := Flow(Hash(cfg, at), "document.write", at.start - cfg.shift, at.end - cfg.shift);
            && RunStmts(w, cfg, [FirstAsk(at), SecondAsk(at)], c).reached == {f}
            && f in AbsStmts(cfg, [FirstAsk(at), SecondAsk(at)], a).flows
  {
    hide RunStmt; hide RunStmts; hide AbsStmts; hide SupportedStmts; hide Covers;
    LaterCovers(w, a, c);
    OneScope(w, a, c);
    BothAreSupported(w.keeps, cfg, at, a);
    TwoRuns(w, cfg, FirstAsk(at), SecondAsk(at), c);
    FirstRun(w, cfg, at, c);
    SecondRun(w, cfg, at, RunStmt(w, cfg, FirstAsk(at), c));
    AsStatement(w, a, c);
    SoundStmts(w, cfg, [FirstAsk(at), SecondAsk(at)], a, c);
    assert Reach(cfg, at, "document.write", {Hash(cfg, at)})
        == {Flow(Hash(cfg, at), "document.write", at.start - cfg.shift, at.end - cfg.shift)};
  }

  lemma OneScope(w: World, a: Abs, c: Con)
    requires Covers(w, a, c) && |a.vars| == 1
    ensures |c.env| == 1
  {
  }

  // ---------------------------------------------------------------------------------------------
  // Long storage keys
  // ---------------------------------------------------------------------------------------------

  /** `storage.getItem("key")`. */
  function StorageCall(at: Pos, inner: Pos, storage: string, key: string): Expr {
    Call(at, Dot(inner, Identifier(inner, storage), "getItem"), [StringLiteral(inner, key)])
  }

  /** `document.write(argument)`. */
  function WriteCall(at: Pos, inner: Pos, argument: Expr): Expr {
    Call(at, Dot(inner, Identifier(inner, "document"), "write"), [argument])
  }

  lemma StoragePath(inner: Pos, storage: string, bound: set<string>)
    requires StorageObject(storage) && storage !in bound
    ensures GlobalPath(Identifier(inner, storage), bound) == storage && TrimWindow(storage) == storage
  {
    assert storage[0] != "window."[0];
  }

  /** What the analysis makes of reading a storage entry. */
  lemma StorageSeen(cfg: Script, at: Pos, inner: Pos, storage: string, key: string, a: Abs)
    requires StorageObject(storage) && a.vars != [] && storage !in Bound(a.vars)
    ensures AbsExpr(cfg, StorageCall(at, inner, storage, key), a) == Outcome(SourceAt(cfg, at, storage, key), a)
  {
    hide GlobalPath; hide AbsList; hide AbsExpr; hide AbsCall;
    var e := StorageCall(at, inner, storage, key);
    CallHasNoPath(e, Bound(a.vars));
    StoragePath(inner, storage, Bound(a.vars));
    LiteralSeen(cfg, inner, key, a);
    AbsExprCases(cfg, e, a);
    AbsCallCases(cfg, e, a);
    assert Member(e.callee) == Some((Identifier(inner, storage), "getItem"));
    assert LiteralKey(e.args) == Some(key);
  }

  lemma LiteralSeen(cfg: Script, inner: Pos, key: string, a: Abs)
    requires a.vars != []
    ensures AbsList(cfg, [StringLiteral(inner, key)], a) == Outcomes([[]], a)
  {
    var e := StringLiteral(inner, key);
    assert [e][..0] == [];
    assert AbsExpr(cfg, e, a) == Outcome([], a);
    assert [] + [AbsExpr(cfg, e, a).value] == [[]];
  }

  /** What reading a storage entry delivers in a run: always the input, and perhaps what comes back. */
  lemma StorageRun(w: World, cfg: Script, at: Pos, inner: Pos, storage: string, key: string, c: Con)
    requires StorageObject(storage) && c.env != [] && storage !in BoundNames(c.env)
    ensures var x := Source(storage, key, at.start - cfg.shift, at.end - cfg.shift);
            var r := RunExpr(w, cfg, StorageCall(at, inner, storage, key), c);
            && r.after == c.(clock := c.clock + 3)
            && r.val.taint == {x} + Echo(w, c.(clock := c.clock + 2))
  {
    hide GlobalPath; hide RunList; hide Echo;
    var e := StorageCall(at, inner, storage, key);
    CallRun(w, cfg, e, c);
    StoragePath(inner, storage, BoundNames(c.env));
    LiteralRun(w, cfg, inner, key, c.Later());
  }

  lemma LiteralRun(w: World, cfg: Script, inner: Pos, key: string, c: Con)
    requires c.env != []
    ensures var r := RunList(w, cfg, [StringLiteral(inner, key)], c);
            |r.vals| == 1 && r.vals[0].taint == {} && r.after == c.Later()
  {
    assert [StringLiteral(inner, key)][..0] == [];
  }

  lemma CallHasNoPath(e: Expr, bound: set<string>)
    requires e.Call?
    ensures SourceKind(GlobalPath(e, bound)).None?
  {
  }

  /**
   * The input a storage read delivers in every run is among the sources the analysis finds exactly when
   * the reading node lies in the script and the key has at most 128 bytes.
   */
  lemma StorageIsSeenExactlyWhen(w: World, cfg: Script, at: Pos, inner: Pos, storage: string, key: string, a: Abs,
                                 c: Con)
    requires StorageObject(storage) && a.vars != [] && storage !in Bound(a.vars)
    requires c.env != [] && storage !in BoundNames(c.env)
    ensures var e := StorageCall(at, inner, storage, key);
            var x := Source(storage, key, at.start - cfg.shift, at.end - cfg.shift);
            && x in RunExpr(w, cfg, e, c).val.taint
            && (x in AbsExpr(cfg, e, a).value <==> cfg.Inside(at) && |key| <= 128)
  {
    hide RunExpr; hide AbsExpr;
    StorageSeen(cfg, at, inner, storage, key, a);
    StorageRun(w, cfg, at, inner, storage, key, c);
  }

  // ---------------------------------------------------------------------------------------------
  // A program that writes a storage entry into the page
  // ---------------------------------------------------------------------------------------------

  lemma DocumentPath(inner: Pos, bound: set<string>)
    requires "document" !in bound
    ensures GlobalPath(Dot(inner, Identifier(inner, "document"), "write"), bound) == "document.write"
    ensures GlobalPath(Identifier(inner, "document"), bound) == "document" && SourceKind("document").None?
  {
    assert GlobalPath(Identifier(inner, "document"), bound, 1) == "document";
    assert "document" + "." + "write" == "document.write";
  }

  /** A program that is one expression, as the analysis sees it. */
  lemma OneStatementSeen(cfg: Script, e: Expr)
    ensures AbsStmts(cfg, [ExprStmt(e)], EMPTY).flows == AbsExpr(cfg, e, EMPTY).after.flows
  {
    hide AbsExpr;
    assert [ExprStmt(e)][..0] == [];
  }

  /** A program that is one expression, in a run. */
  lemma OneStatementRuns(w: World, cfg: Script, e: Expr)
    ensures RunStmts(w, cfg, [ExprStmt(e)], START).reached == RunExpr(w, cfg, e, START).after.reached
  {
    hide RunExpr;
    assert [ExprStmt(e)][..0] == [];
  }

  lemma OneArgument(cfg: Script, argument: Expr, value: seq<Source>, a: Abs)
    requires a.vars != [] && AbsExpr(cfg, argument, a) == Outcome(value, a) && |value| <= 1
    ensures AbsList(cfg, [argument], a) == Outcomes([value], a) && JoinAll([value]) == value && Join(value, []) == value
  {
    hide AbsExpr; hide AbsList; hide Join; hide JoinAll;
    var es, none := [argument], [argument][..0];
    AbsListNext(cfg, es, a, 0);
    assert es[..1] == es && none == [];
    NoArguments(cfg, a);
    assert [] + [value] == [value];
    JoinedOne(value);
  }

  lemma NoArguments(cfg: Script, a: Abs)
    requires a.vars != []
    ensures AbsList(cfg, [], a) == Outcomes([], a)
  {
  }

  lemma JoinedOne(value: seq<Source>)
    requires |value| <= 1
    ensures JoinAll([value]) == value && Join(value, []) == value
  {
    JoinNone(value);
    assert [value][..0] == [];
    if value != [] {
      assert value == [value[0]] && value[..0] == [];
      JoinNone([]);
      JoinNext([], value, 0);
      assert value[..1] == value && [] + [value[0]] == value;
    }
  }

  /** Writing one value into the page records its sources. */
  lemma WriteSeen(cfg: Script, at: Pos, inner: Pos, argument: Expr, value: seq<Source>, a: Abs)
    requires a.vars != [] && "document" !in Bound(a.vars) && AbsExpr(cfg, argument, a) == Outcome(value, a)
             && |value| <= 1
    ensures AbsExpr(cfg, WriteCall(at, inner, argument), a)
         == Outcome(value, a.(flows := Record(cfg, a.flows, at, "document.write", value)))
  {
    hide AbsExpr; hide AbsCall; hide AbsList; hide GlobalPath; hide Record; hide Join; hide JoinAll;
    var e, document := WriteCall(at, inner, argument), Identifier(inner, "document");
    DocumentPath(inner, Bound(a.vars));
    CallHasNoPath(e, Bound(a.vars));
    AbsExprCases(cfg, e, a);
    AbsCallCases(cfg, e, a);
    AbsExprCases(cfg, document, a);
    UnboundHoldsNothing(a.vars, "document");
    OneArgument(cfg, argument, value, a);
    assert Member(e.callee) == Some((document, "write"));
  }

  lemma {:induction false} UnboundHoldsNothing(vars: seq<Vars>, name: string)
    requires name !in Bound(vars)
    ensures Lookup(vars, name) == []
  {
    if vars != [] {
      assert name !in vars[0];
      assert forall i :: 0 <= i < |vars| - 1 ==> vars[1..][i] == vars[i + 1];
      UnboundHoldsNothing(vars[1..], name);
    }
  }

  lemma {:induction false} UnboundIsUntainted(env: seq<Frame>, name: string)
    requires name !in BoundNames(env)
    ensures TaintOf(env, name) == {}
  {
    if env != [] {
      assert name !in env[0];
      assert forall i :: 0 <= i < |env| - 1 ==> env[1..][i] == env[i + 1];
      UnboundIsUntainted(env[1..], name);
    }
  }

  /** In a run, every input of the value written reaches the page, with what comes back at that moment. */
  lemma WriteRuns(w: World, cfg: Script, at: Pos, inner: Pos, argument: Expr, c: Con)
    requires !argument.StringLiteral? && c.env != [] && "document" !in BoundNames(c.env)
    requires RunExpr(w, cfg, argument, c.Later()).after.env == c.env
    ensures var r := RunExpr(w, cfg, argument, c.Later());
            RunExpr(w, cfg, WriteCall(at, inner, argument), c).after.reached
            == r.after.reached + Reach(cfg, at, "document.write", r.val.taint + Echo(w, r.after))
  {
    hide GlobalPath; hide RunExpr; hide Reach; hide BoundNames; hide Echo;
    var e, r := WriteCall(at, inner, argument), RunExpr(w, cfg, argument, c.Later());
    DocumentPath(inner, BoundNames(c.env));
    UnboundIsUntainted(c.env, "document");
    OneRun(w, cfg, argument, c.Later());
    CallRun(w, cfg, e, c);
    var met := r.val.taint + Echo(w, r.after);
    OneMet(w, r.val, r.after);
    assert Member(e.callee) == Some((Identifier(inner, "document"), "write"));
    assert RefTaint(cfg, Identifier(inner, "document"), c.env) == {};
    assert met + ({} + Echo(w, r.after)) == met;
    assert MethodSinks(cfg, e, MeetAll(w, [r.val], r.after)) == {};
    assert SinkFunction("document.write") && !TimerFunction("document.write");
    assert {} + (Reach(cfg, at, "document.write", met) + {}) == Reach(cfg, at, "document.write", met);
  }

  lemma OneMet(w: World, v: Val, c: Con)
    ensures MeetAll(w, [v], c) == [Meet(w, v, c).val] && Taints(MeetAll(w, [v], c)) == v.taint + Echo(w, c)
  {
    var met := Meet(w, v, c).val;
    assert MeetAll(w, [v], c) == [met];
    assert Taints([met]) == met.taint;
  }

  lemma OneRun(w: World, cfg: Script, e: Expr, c: Con)
    requires c.env != []
    ensures RunList(w, cfg, [e], c) == Deliveries([RunExpr(w, cfg, e, c).val], RunExpr(w, cfg, e, c).after)
  {
    hide RunExpr;
    assert [e][..0] == [];
    assert [] + [RunExpr(w, cfg, e, c).val] == [RunExpr(w, cfg, e, c).val];
  }

  lemma CallRun(w: World, cfg: Script, e: Expr, c: Con)
    requires e.Call? && c.env != []
    ensures RunExpr(w, cfg, e, c) == RunCall(w, cfg, e, c)
  {
    CallHasNoPath(e, BoundNames(c.env));
  }

  /** `document.write(storage.getItem("key"))`. */
  function StorageWrite(at: Pos, read: Pos, inner: Pos, storage: string, key: string): seq<Stmt> {
    [ExprStmt(WriteCall(at, inner, StorageCall(read, inner, storage, key)))]
  }

  /** The flow from the storage entry into the page. */
  function StorageFlow(cfg: Script, at: Pos, read: Pos, storage: string, key: string): Flow {
    Flow(Source(storage, key, read.start - cfg.shift, read.end - cfg.shift), "document.write", at.start - cfg.shift,
         at.end - cfg.shift)
  }

  /** The analysis reports the flow exactly when the key has at most 128 bytes, and otherwise nothing. */
  lemma StorageWriteSeen(cfg: Script, at: Pos, read: Pos, inner: Pos, storage: string, key: string)
    requires StorageObject(storage) && cfg.Inside(read) && Reportable(cfg, at)
    ensures AbsStmts(cfg, StorageWrite(at, read, inner, storage, key), EMPTY).flows
         == if |key| <= 128 then [StorageFlow(cfg, at, read, storage, key)] else []
  {
    hide AbsExpr; hide AbsStmts; hide Record; hide Reportable;
    var e, value := StorageCall(read, inner, storage, key), SourceAt(cfg, read, storage, key);
    assert Bound([map[]]) == {};
    OneStatementSeen(cfg, WriteCall(at, inner, e));
    StorageSeen(cfg, read, inner, storage, key, EMPTY);
    WriteSeen(cfg, at, inner, e, value, EMPTY);
    OneRecord(cfg, at, value);
  }

  /** In every run the storage entry reaches the page. */
  lemma StorageWriteRuns(w: World, cfg: Script, at: Pos, read: Pos, inner: Pos, storage: string, key: string)
    requires StorageObject(storage) && Reportable(cfg, at)
    ensures RunStmts(w, cfg, StorageWrite(at, read, inner, storage, key), START).reached
            == {StorageFlow(cfg, at, read, storage, key)}
  {
    hide RunExpr; hide RunStmts; hide Reach; hide Echo;
    var e, x := StorageCall(read, inner, storage, key), StorageFlow(cfg, at, read, storage, key).source;
    assert BoundNames(START.env) == {} && BoundNames(START.Later().env) == {};
    OneStatementRuns(w, cfg, WriteCall(at, inner, e));
    StorageRun(w, cfg, read, inner, storage, key, START.Later());
    WriteRuns(w, cfg, at, inner, e, START);
    NothingEchoes(w, START.(clock := 3));
    assert {x} + {} + {} == {x};
    OneReached(cfg, at, x);
  }

  lemma OneReached(cfg: Script, at: Pos, x: Source)
    ensures {} + Reach(cfg, at, "document.write", {x})
         == {Flow(x, "document.write", at.start - cfg.shift, at.end - cfg.shift)}
  {
  }

  /**
   * A storage entry written into the page reaches the sink in every run, and what reaches the sink is
   * reported exactly when the key has at most 128 bytes.
   */
  lemma StorageFlowIsReportedExactlyWhen(w: World, cfg: Script, at: Pos, read: Pos, inner: Pos, storage: string,
                                         key: string)
    requires StorageObject(storage) && cfg.Inside(read) && Reportable(cfg, at)
    ensures var reached := RunStmts(w, cfg, StorageWrite(at, read, inner, storage, key), START).reached;
            var flows := AbsStmts(cfg, StorageWrite(at, read, inner, storage, key), EMPTY).flows;
            && reached == {StorageFlow(cfg, at, read, storage, key)}
            && ((forall f :: f in reached ==> f in flows) <==> |key| <= 128)
            && (|key| > 128 ==> flows == [])
  {
    hide RunStmts; hide AbsStmts; hide StorageWrite; hide StorageFlow;
    StorageWriteSeen(cfg, at, read, inner, storage, key);
    StorageWriteRuns(w, cfg, at, read, inner, storage, key);
    assert StorageFlow(cfg, at, read, storage, key) in {StorageFlow(cfg, at, read, storage, key)};
  }

  lemma OneRecord(cfg: Script, at: Pos, value: seq<Source>)
    requires |value| <= 1 && Reportable(cfg, at)
    ensures Record(cfg, [], at, "document.write", value)
         == if value == [] then [] else [Flow(value[0], "document.write", at.start - cfg.shift, at.end - cfg.shift)]
  {
    if value != [] {
      assert value[..0] == [];
    }
  }
}
