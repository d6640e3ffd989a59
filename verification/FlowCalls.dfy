/**
 * What calls of the program's own functions do: the argument in a parameter's place reaches what the body
 * sends the parameter to, and what a body returns is what the call delivers.
 */
module FlowCalls {
  import opened Prelude
  import opened FlowSyntax
  import opened FlowHeap
  import opened FlowSpec
  import opened FlowValues
  import opened FlowSoundness
  import opened FlowLimits
  import opened FlowEscapes

  /** `function name(params) { document.write(shown); }` followed by `name(args);` */
  function ShowProgram(at: Pos, inner: Pos, name: string, params: seq<Target>, shown: string,
                       args: seq<Expr>): seq<Stmt> {
    [FunctionDecl(Some(name), params, [ExprStmt(WriteCall(at, inner, Identifier(inner, shown)))]),
     ExprStmt(Call(at, Identifier(inner, name), args))]
  }

  /** Without functions, a program in the fragment of the statements is in that of the programs. */
  lemma StatementsAreAProgram(cfg: Script, list: seq<Stmt>)
    requires DirectStmts({}, list)
    ensures Declared(list) == map[] && DirectProgram(Declared(list).Keys, list)
    ensures AbsProgram(cfg, list) == AbsStmts(Outset(cfg), list, EMPTY)
  {
    hide AbsStmts; hide DirectStmt; hide Declares;
    NothingDeclared(list);
    var names: Vars := map n | n in Declared(list) :: [];
    assert Declared(list).Keys == {} && names == map[];
    assert Hoisted(EMPTY.vars, list) == [map[] + names] == [map[]];
    assert Outset(cfg).functions + Declared(list) == map[];
  }

  /** An expression that reads an input inside the script and does not begin with the function's name. */
  ghost predicate ReadsInputInside(cfg: Script, name: string, e: Expr) {
    SourceKind(GlobalPath(e, {})).Some? && Root(e) != name && cfg.Inside(Node(e))
  }

  ghost predicate AllInputs(cfg: Script, name: string, es: seq<Expr>) {
    forall i {:trigger es[i]} :: 0 <= i < |es| ==> ReadsInputInside(cfg, name, es[i])
  }

  /** Names that no scope binds lead to the same path as without any scope. */
  lemma {:induction false} PathWithout(e: Expr, bound: set<string>, depth: nat)
    requires Root(e) !in bound
    ensures GlobalPath(e, bound, depth) == GlobalPath(e, {}, depth)
    decreases e
  {
    if e.Dot? || e.Bracket? {
      PathWithout(e.left, bound, depth + 1);
    }
  }

  lemma InputSeen(cfg: Script, name: string, e: Expr, a: Abs)
    requires ReadsInputInside(cfg, name, e) && a.vars != [] && Bound(a.vars) <= {name}
    ensures AbsExpr(cfg, e, a) == Outcome([InputOf(cfg, e)], a)
  {
    hide GlobalPath; hide SourceKind;
    PathWithout(e, Bound(a.vars), 0);
    AbsExprCases(cfg, e, a);
  }

  lemma {:induction false} InputsSeen(cfg: Script, name: string, es: seq<Expr>, a: Abs)
    requires AllInputs(cfg, name, es) && a.vars != [] && Bound(a.vars) <= {name}
    ensures AbsList(cfg, es, a).after == a
    ensures forall i :: 0 <= i < |es| ==> AbsList(cfg, es, a).values[i] == [InputOf(cfg, es[i])]
  {
    hide AbsExpr; hide ReadsInputInside; hide InputOf;
    if es != [] {
      var init, last := es[..|es| - 1], es[|es| - 1];
      assert forall i :: 0 <= i < |init| ==> init[i] == es[i];
      InputsSeen(cfg, name, init, a);
      InputSeen(cfg, name, last, a);
    }
  }

  /** What the last parameter of a name is bound to. */
  lemma {:induction false} ParameterHolds(params: seq<Target>, values: seq<seq<Source>>, i: nat, name: string)
    requires IsParameter(params, i, name) && forall j: nat :: IsParameter(params, j, name) ==> j <= i
    ensures name in AbsParameters(params, values)
    ensures AbsParameters(params, values)[name] == if i < |values| then values[i] else []
  {
    var n := |params| - 1;
    if i < n {
      assert !IsParameter(params, n, name);
      assert forall j: nat :: IsParameter(params[..n], j, name) ==> IsParameter(params, j, name);
      ParameterHolds(params[..n], values, i, name);
    }
  }

  /** The setting of the statements of a program that declares one function. */
  lemma OneFunction(cfg: Script, name: string, params: seq<Target>, body: seq<Stmt>, rest: Stmt)
    requires Declares(rest).None?
    ensures var list := [FunctionDecl(Some(name), params, body), rest];
            var c := Declaring(Outset(cfg), list);
            && Declared(list) == map[name := Fn(params, BlockBody(body))]
            && c == Outset(cfg).(functions := map[name := Fn(params, BlockBody(body))])
            && Hoisted(EMPTY.vars, list) == [map[name := []]]
            && AbsProgram(cfg, list) == AbsStmt(c, rest, Abs([map[name := []]], []))
  {
    hide AbsStmt;
    var list := [FunctionDecl(Some(name), params, body), rest];
    var c, a := Declaring(Outset(cfg), list), Abs(Hoisted(EMPTY.vars, list), []);
    assert list[..1] == [list[0]] && [list[0]][..0] == [] && list[..0] == [] && list[..2] == list;
    assert Declared([list[0]]) == map[name := Fn(params, BlockBody(body))];
    var names: Vars := map n | n in Declared(list) :: [];
    assert Declared(list) == map[name := Fn(params, BlockBody(body))];
    assert names == map[name := []] && map[] + names == names;
    assert Hoisted(EMPTY.vars, list) == [names];
    AbsStmtsNext(c, list, a, 0);
    AbsStmtsNext(c, list, a, 1);
    AbsStmtCases(c, list[0], a);
  }

  /** A call whose arguments are inputs hands them to the body of the function. */
  lemma CallSeen(c: Script, at: Pos, inner: Pos, name: string, args: seq<Expr>, a: Abs)
    returns (values: seq<seq<Source>>)
    requires name in c.functions && c.calls > 0 && |a.vars| == 1 && a.vars[0].Keys == {name}
    requires AllInputs(c, name, args)
    ensures |values| == |args| && forall i :: 0 <= i < |args| ==> values[i] == [InputOf(c, args[i])]
    ensures var x := AbsFunction(c, c.functions[name], values, a);
            AbsExpr(c, Call(at, Identifier(inner, name), args), a) == x
  {
    hide AbsExpr; hide AbsList; hide AbsFunction; hide ReadsInputInside;
    var e := Call(at, Identifier(inner, name), args);
    assert Bound(a.vars) == {name};
    InputsSeen(c, name, args, a);
    values := AbsList(c, args, a).values;
    CallHasNoPath(e, Bound(a.vars));
    AbsExprCases(c, e, a);
    AbsCallCases(c, e, a);
    assert [a.vars[0]] == a.vars;
    var x := AbsFunction(c, c.functions[name], values, a);
    assert a.vars[0 := x.after.vars[0]] == x.after.vars;
  }

  /** A body of one statement, in a call scope that binds the parameters. */
  lemma BodySeen(c: Script, params: seq<Target>, body: Stmt, values: seq<seq<Source>>, a: Abs)
    requires c.calls > 0 && |a.vars| == 1
    ensures var b := Abs([AbsParameters(params, values)] + a.vars, a.flows);
            var inner := c.(around := 1, calls := c.calls - 1);
            var x := AbsStmt(inner, body, b);
            AbsFunction(c, Fn(params, BlockBody([body])), values, a)
            == Outcome(Join([], AbsGiven(inner, body, b)), x.(vars := x.vars[1..]))
  {
    hide AbsStmt; hide AbsGiven; hide AbsParameters; hide Join;
    var b := Abs([AbsParameters(params, values)] + a.vars, a.flows);
    var inner := c.(around := 1, calls := c.calls - 1);
    assert [body][..0] == [] && [body][..1] == [body];
    AbsStmtsNext(inner, [body], b, 0);
    assert AbsReturned(inner, [], b) == [];
  }

  /** The variable that the last parameter of a name binds. */
  lemma ParameterSeen(c: Script, params: seq<Target>, values: seq<seq<Source>>, i: nat, x: Expr, a: Abs)
    requires x.Identifier? && IsParameter(params, i, x.name)
    requires forall j: nat :: IsParameter(params, j, x.name) ==> j <= i
    ensures var b := Abs([AbsParameters(params, values)] + a.vars, a.flows);
            AbsExpr(c, x, b) == Outcome(if i < |values| then values[i] else [], b)
  {
    hide AbsParameters; hide IsParameter;
    ParameterHolds(params, values, i, x.name);
    var b := Abs([AbsParameters(params, values)] + a.vars, a.flows);
    assert x.name in b.vars[0] && x.name in Bound(b.vars);
    assert GlobalPath(x, Bound(b.vars)) == "" && SourceKind("").None?;
  }

  /** No parameter is called like the function or like the page. */
  ghost predicate OrdinaryNames(name: string, params: seq<Target>) {
    name != "document"
    && forall j :: 0 <= j < |params| && params[j].Named? ==> params[j].name != name && params[j].name != "document"
  }

  /**
   * Exactly the argument in the parameter's place reaches the page: the last parameter of the name that
   * the body writes decides which one it is, and a missing argument is nothing.
   */
  lemma ArgumentReachesTheBody(cfg: Script, at: Pos, inner: Pos, name: string, params: seq<Target>, shown: string,
                               args: seq<Expr>, i: nat)
    requires IsParameter(params, i, shown) && forall j: nat :: IsParameter(params, j, shown) ==> j <= i
    requires OrdinaryNames(name, params) && AllInputs(cfg, name, args) && Reportable(cfg, at)
    ensures AbsProgram(cfg, ShowProgram(at, inner, name, params, shown, args)).flows
            == if i < |args| then
                 [Flow(InputOf(cfg, args[i]), "document.write", at.start - cfg.shift, at.end - cfg.shift)]
               else []
  {
    hide AbsExpr; hide AbsStmt; hide AbsFunction; hide AbsParameters; hide InputOf; hide WriteCall; hide Record;
    hide ReadsInputInside; hide GlobalPath; hide AbsProgram; hide IsParameter; hide Join; hide AbsGiven;
    var x := Identifier(inner, shown);
    var write, call := WriteCall(at, inner, x), Call(at, Identifier(inner, name), args);
    OneFunction(cfg, name, params, [ExprStmt(write)], ExprStmt(call));
    var c, a := Outset(cfg).(functions := map[name := Fn(params, BlockBody([ExprStmt(write)]))]),
                Abs([map[name := []]], []);
    SameInputs(cfg, c, name, args);
    var values := CallSeen(c, at, inner, name, args, a);
    AbsStmtCases(c, ExprStmt(call), a);
    BodySeen(c, params, ExprStmt(write), values, a);
    var b, d := Abs([AbsParameters(params, values)] + a.vars, a.flows), c.(around := 1, calls := c.calls - 1);
    AbsStmtCases(d, ExprStmt(write), b);
    ParameterSeen(d, params, values, i, x, a);
    ParameterNames(params, values, {"document"});
    WriteSeen(d, at, inner, x, if i < |values| then values[i] else [], b);
    OneRecord(d, at, if i < |values| then values[i] else []);
  }

  /** `function show(x) { document.write(x); } show(location.hash);` */
  lemma HashIsShown(cfg: Script, at: Pos, read: Pos, inner: Pos)
    requires cfg.Inside(read) && Reportable(cfg, at)
    ensures var hash := Dot(read, Identifier(inner, "location"), "hash");
            AbsProgram(cfg, ShowProgram(at, inner, "show", [Named("x")], "x", [hash])).flows
            == [Flow(Source("fragment", "", read.start - cfg.shift, read.end - cfg.shift), "document.write",
                     at.start - cfg.shift, at.end - cfg.shift)]
  {
    hide AbsProgram;
    var hash := Dot(read, Identifier(inner, "location"), "hash");
    assert GlobalPath(Identifier(inner, "location"), {}, 1) == "location";
    assert GlobalPath(hash, {}) == "location" + "." + "hash" == "location.hash";
    assert Root(hash) == "location" && |"location"| != |"show"|;
    assert ReadsInputInside(cfg, "show", hash);
    assert IsParameter([Named("x")], 0, "x");
    ArgumentReachesTheBody(cfg, at, inner, "show", [Named("x")], "x", [hash], 0);
  }

  /** The setting does not change what an expression reads. */
  lemma SameInputs(cfg: Script, c: Script, name: string, args: seq<Expr>)
    requires SameText(cfg, c) && AllInputs(cfg, name, args)
    ensures AllInputs(c, name, args)
    ensures forall i {:trigger args[i]} :: 0 <= i < |args| ==> InputOf(c, args[i]) == InputOf(cfg, args[i])
  {
    hide GlobalPath; hide SourceKind;
  }

  /** `function name(params) { return given; }` followed by `document.write(name(args));` */
  function ReturnProgram(at: Pos, inner: Pos, name: string, params: seq<Target>, given: string,
                         args: seq<Expr>): seq<Stmt> {
    [FunctionDecl(Some(name), params, [Return(Identifier(inner, given))]),
     ExprStmt(WriteCall(at, inner, Call(inner, Identifier(inner, name), args)))]
  }

  lemma JoinedFirst(value: seq<Source>)
    requires |value| <= 1
    ensures Join([], value) == value
  {
    if value != [] {
      assert value[..0] == [] && [] + value == value;
    }
  }

  /** What a body returns is what the call delivers: exactly the argument in the returned parameter's place. */
  lemma ReturnedArgumentIsDelivered(cfg: Script, at: Pos, inner: Pos, name: string, params: seq<Target>, given: string,
                                    args: seq<Expr>, i: nat)
    requires IsParameter(params, i, given) && forall j: nat :: IsParameter(params, j, given) ==> j <= i
    requires OrdinaryNames(name, params) && AllInputs(cfg, name, args) && Reportable(cfg, at)
    ensures AbsProgram(cfg, ReturnProgram(at, inner, name, params, given, args)).flows
            == if i < |args| then
                 [Flow(InputOf(cfg, args[i]), "document.write", at.start - cfg.shift, at.end - cfg.shift)]
               else []
  {
    hide AbsExpr; hide AbsStmt; hide AbsFunction; hide AbsParameters; hide InputOf; hide WriteCall; hide Record;
    hide ReadsInputInside; hide GlobalPath; hide Join;
    var x, call := Identifier(inner, given), Call(inner, Identifier(inner, name), args);
    var write := WriteCall(at, inner, call);
    OneFunction(cfg, name, params, [Return(x)], ExprStmt(write));
    var c, a := Outset(cfg).(functions := map[name := Fn(params, BlockBody([Return(x)]))]), Abs([map[name := []]], []);
    SameInputs(cfg, c, name, args);
    var values := CallSeen(c, inner, inner, name, args, a);
    var value := if i < |values| then values[i] else [];
    BodySeen(c, params, Return(x), values, a);
    var b, d := Abs([AbsParameters(params, values)] + a.vars, a.flows), c.(around := 1, calls := c.calls - 1);
    AbsStmtCases(d, Return(x), b);
    AbsGivenCases(d, Return(x), b);
    ParameterSeen(d, params, values, i, x, a);
    JoinedFirst(value);
    assert b.vars[1..] == a.vars;
    assert AbsExpr(c, call, a) == Outcome(value, a);
    AbsStmtCases(c, ExprStmt(write), a);
    assert Bound(a.vars) == {name};
    WriteSeen(c, at, inner, call, value, a);
    OneRecord(c, at, value);
  }

  // ---------------------------------------------------------------------------------------------
  // Query parameters
  // ---------------------------------------------------------------------------------------------

  /** `new URLSearchParams(input).get("key")` */
  function ParameterCall(at: Pos, inner: Pos, input: Expr, key: string): Expr {
    Call(at, Dot(inner, New(inner, Identifier(inner, "URLSearchParams"), [input]), "get"), [StringLiteral(inner, key)])
  }

  /** `document.write(new URLSearchParams(input).get("key"));` */
  function ParameterProgram(at: Pos, read: Pos, inner: Pos, input: Expr, key: string): seq<Stmt> {
    [ExprStmt(WriteCall(at, inner, ParameterCall(read, inner, input, key)))]
  }

  /** What the object made from an input is known to hold. */
  lemma ParametersSeen(c: Script, inner: Pos, input: Expr, a: Abs)
    requires ReadsInputInside(c, "", input) && Bound(a.vars) == {} && a.vars != []
    ensures var e := New(inner, Identifier(inner, "URLSearchParams"), [input]);
            AbsKind(c, e, a) == InputOf(c, input).kind && AbsExpr(c, e, a) == Outcome([], a)
  {
    hide AbsExpr; hide ReadsInputInside;
    var e := New(inner, Identifier(inner, "URLSearchParams"), [input]);
    AbsExprCases(c, e, a);
    InputSeen(c, "", input, a);
    assert GlobalPath(e.callee, Bound(a.vars)) == "URLSearchParams";
  }

  /** A parameter of the query or of the fragment is an input of its own; of other inputs nothing is known. */
  lemma ParameterRead(c: Script, at: Pos, inner: Pos, input: Expr, key: string, a: Abs)
    requires ReadsInputInside(c, "", input) && Bound(a.vars) == {} && a.vars != []
    ensures var kind := InputOf(c, input).kind;
            AbsExpr(c, ParameterCall(at, inner, input, key), a)
            == Outcome(if kind == "query" || kind == "fragment" then SourceAt(c, at, kind, key) else [], a)
  {
    hide AbsExpr; hide AbsKind; hide AbsList; hide ReadsInputInside; hide InputOf; hide SourceAt;
    var e := ParameterCall(at, inner, input, key);
    var made := New(inner, Identifier(inner, "URLSearchParams"), [input]);
    ParametersSeen(c, inner, input, a);
    LiteralSeen(c, inner, key, a);
    CallHasNoPath(e, Bound(a.vars));
    AbsExprCases(c, e, a);
    AbsCallCases(c, e, a);
    JoinedOne([]);
    assert Member(e.callee) == Some((made, "get")) && LiteralKey(e.args) == Some(key);
    assert GlobalPath(made, Bound(a.vars)) == "" && GlobalPath(e.callee, Bound(a.vars)) == "";
    assert !StorageObject(TrimWindow("")) && !SinkFunction("") && !TimerFunction("");
  }

  /**
   * Exactly the parameters of the query and of the fragment are followed, under keys of at most 128 bytes.
   */
  lemma ParameterReachesThePage(cfg: Script, at: Pos, read: Pos, inner: Pos, input: Expr, key: string)
    requires ReadsInputInside(cfg, "", input) && cfg.Inside(read) && Reportable(cfg, at)
    ensures var kind := InputOf(cfg, input).kind;
            AbsProgram(cfg, ParameterProgram(at, read, inner, input, key)).flows
            == if (kind == "query" || kind == "fragment") && |key| <= 128 then
                 [Flow(Source(kind, key, read.start - cfg.shift, read.end - cfg.shift), "document.write",
                       at.start - cfg.shift, at.end - cfg.shift)]
               else []
  {
    hide AbsExpr; hide InputOf; hide WriteCall; hide Record; hide GlobalPath; hide AbsStmts; hide SourceKind;
    var c, call := Outset(cfg), ParameterCall(read, inner, input, key);
    var list := ParameterProgram(at, read, inner, input, key);
    var kind := InputOf(cfg, input).kind;
    var value := if kind == "query" || kind == "fragment" then SourceAt(c, read, kind, key) else [];
    SameInputs(cfg, c, "", [input]);
    assert [input][0] == input;
    assert Bound(EMPTY.vars) == {};
    ParameterRead(c, read, inner, input, key, EMPTY);
    ParameterProgramIsDirect(at, read, inner, input, key);
    StatementsAreAProgram(cfg, list);
    OneStatementSeen(c, WriteCall(at, inner, call));
    WriteSeen(c, at, inner, call, value, EMPTY);
    OneRecord(c, at, value);
  }

  // ---------------------------------------------------------------------------------------------
  // These programs lie in the fragment
  // ---------------------------------------------------------------------------------------------

  lemma ShowProgramIsDirect(cfg: Script, at: Pos, inner: Pos, name: string, params: seq<Target>, shown: string,
                            args: seq<Expr>)
    requires OrdinaryNames(name, params) && AllInputs(cfg, name, args) && shown != name
    ensures var list := ShowProgram(at, inner, name, params, shown, args);
            DirectProgram(Declared(list).Keys, list)
  {
    hide GlobalPath; hide SourceKind;
    var x, call := Identifier(inner, shown), Call(at, Identifier(inner, name), args);
    WriteIsDirect({name}, at, inner, x);
    CallIsDirect(cfg, at, inner, name, args);
    OneFunctionIsDirect(cfg, name, params, ExprStmt(WriteCall(at, inner, x)), ExprStmt(call));
  }

  lemma ReturnProgramIsDirect(cfg: Script, at: Pos, inner: Pos, name: string, params: seq<Target>, given: string,
                              args: seq<Expr>)
    requires OrdinaryNames(name, params) && AllInputs(cfg, name, args) && given != name
    ensures var list := ReturnProgram(at, inner, name, params, given, args);
            DirectProgram(Declared(list).Keys, list)
  {
    hide GlobalPath; hide SourceKind;
    var x, call := Identifier(inner, given), Call(inner, Identifier(inner, name), args);
    CallIsDirect(cfg, inner, inner, name, args);
    WriteIsDirect({name}, at, inner, call);
    OneFunctionIsDirect(cfg, name, params, Return(x), ExprStmt(WriteCall(at, inner, call)));
  }

  lemma OneFunctionIsDirect(cfg: Script, name: string, params: seq<Target>, body: Stmt, rest: Stmt)
    requires OrdinaryNames(name, params) && Declares(body).None? && Declares(rest).None?
    requires DirectStmt({name}, body) && DirectStmt({name}, rest)
    ensures var list := [FunctionDecl(Some(name), params, [body]), rest]; DirectProgram(Declared(list).Keys, list)
  {
    hide AbsStmt; hide Direct;
    var list := [FunctionDecl(Some(name), params, [body]), rest];
    OneFunction(cfg, name, params, [body], rest);
    assert Declared(list).Keys == {name};
    assert DirectStmts({name}, [body]);
    assert DirectFunction({name}, Fn(params, BlockBody([body])));
  }

  lemma ParameterProgramIsDirect(at: Pos, read: Pos, inner: Pos, input: Expr, key: string)
    requires SourceKind(GlobalPath(input, {})).Some?
    ensures DirectStmts({}, ParameterProgram(at, read, inner, input, key))
  {
    var call := ParameterCall(read, inner, input, key);
    PathMeansReference(input, {}, 0);
    assert Parameters({}, Member(call.callee).value.0);
    assert DirectList({}, call.args);
    WriteIsDirect({}, at, inner, call);
  }

  lemma WriteIsDirect(known: set<string>, at: Pos, inner: Pos, argument: Expr)
    requires Direct(known, argument) && "document" !in known
    ensures Direct(known, WriteCall(at, inner, argument))
  {
    assert DirectList(known, [argument]);
  }

  lemma CallIsDirect(cfg: Script, at: Pos, inner: Pos, name: string, args: seq<Expr>)
    requires AllInputs(cfg, name, args)
    ensures Direct({name}, Call(at, Identifier(inner, name), args))
  {
    hide GlobalPath; hide SourceKind;
    forall i | 0 <= i < |args| ensures Direct({name}, args[i]) {
      PathMeansReference(args[i], {}, 0);
      ReferenceIsPure(cfg, {name}, args[i], EMPTY);
    }
    assert DirectList({name}, args);
  }

  lemma {:induction false} PathMeansReference(e: Expr, bound: set<string>, depth: nat)
    requires SourceKind(GlobalPath(e, bound, depth)).Some? || GlobalPath(e, bound, depth) != ""
    ensures PlainReference(e)
    decreases e
  {
    if e.Dot? || e.Bracket? {
      PathMeansReference(e.left, bound, depth + 1);
    }
  }
}
