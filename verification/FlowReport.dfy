/** What callers of the data-flow analysis get: the entry point, and what its report means. */
module FlowReport {
  import opened Prelude
  import opened FlowSyntax
  import opened FlowHeap
  import opened FlowSpec
  import opened FlowAnalysis
  import opened FlowRuns
  import opened FlowSoundness
  import opened FlowLimits
  import opened FlowEscapes
  import opened FlowValues
  import opened FlowCalls

  /** An inline event handler is parsed inside a function of its own; its body is the script. */
  function ScriptBody(cfg: Script, program: seq<Stmt>): seq<Stmt> {
    if cfg.shift > 0 && |program| == 1 && program[0].FunctionDecl? then program[0].list else program
  }

  lemma {:induction false} SupportedIsDirect(keeps: string -> bool, cfg: Script, e: Expr, a: Abs)
    requires a.vars != [] && Supported(keeps, cfg, e, a)
    ensures Direct({}, e)
    decreases e, 1
  {
    hide AbsExpr;
    if SourceKind(GlobalPath(e, Bound(a.vars))).Some? {
      PathMeansReference(e, Bound(a.vars), 0);
    } else if e.Assign? {
      SupportedIsDirect(keeps, cfg, e.right, a);
    } else if e.Binary? {
      SupportedIsDirect(keeps, cfg, e.left, a);
      if !SkipsRight(e) {
        SupportedIsDirect(keeps, cfg, e.right, AbsExpr(cfg, e.left, a).after);
      }
    } else if e.Template? || e.Sequence? {
      SupportedListIsDirect(keeps, cfg, e.parts, a);
    } else if e.Conditional? {
      SupportedConditionalIsDirect(keeps, cfg, e, a);
    } else if e.Call? {
      SupportedListIsDirect(keeps, cfg, e.args, a);
    } else if e.Await? || e.Unary? {
      SupportedIsDirect(keeps, cfg, e.operand, a);
    }
  }

  lemma {:induction false} SupportedConditionalIsDirect(keeps: string -> bool, cfg: Script, e: Expr, a: Abs)
    requires a.vars != [] && e.Conditional? && Supported(keeps, cfg, e, a)
    ensures Direct({}, e)
    decreases e, 0
  {
    hide AbsExpr;
    SupportedIsDirect(keeps, cfg, e.test, a);
    var t := AbsExpr(cfg, e.test, a).after;
    if e.test.BooleanLiteral? {
      SupportedIsDirect(keeps, cfg, if e.test.truth then e.consequent else e.alternate, t);
    } else {
      SupportedIsDirect(keeps, cfg, e.consequent, t);
      SupportedIsDirect(keeps, cfg, e.alternate, t.(flows := AbsExpr(cfg, e.consequent, t).after.flows));
    }
  }

  lemma {:induction false} SupportedListIsDirect(keeps: string -> bool, cfg: Script, es: seq<Expr>, a: Abs)
    requires a.vars != [] && SupportedList(keeps, cfg, es, a)
    ensures DirectList({}, es)
    decreases es, 0
  {
    hide AbsExpr;
    if es != [] {
      var init, last := es[..|es| - 1], es[|es| - 1];
      SupportedListIsDirect(keeps, cfg, init, a);
      SupportedIsDirect(keeps, cfg, last, AbsList(cfg, init, a).after);
      assert forall i :: 0 <= i < |init| ==> es[i] == init[i];
    }
  }

  lemma {:induction false} SupportedStmtIsDirect(keeps: string -> bool, cfg: Script, s: Stmt, a: Abs)
    requires a.vars != [] && SupportedStmt(keeps, cfg, s, a)
    ensures DirectStmt({}, s) && Declares(s).None?
    decreases s, 1
  {
    hide AbsExpr; hide AbsStmt;
    if s.ExprStmt? || (s.Return? && !s.value.NoExpr?) {
      SupportedIsDirect(keeps, cfg, s.value, a);
    } else if s.Export? {
      if s.decl.ExprStmt? {
        SupportedIsDirect(keeps, cfg, s.decl.value, a);
      } else {
        SupportedStmtIsDirect(keeps, cfg, s.decl, a);
      }
    } else if s.VarDecl? {
      SupportedBindingsAreDirect(keeps, cfg, s.bindings, |a.vars| - 1, a, true);
    } else if s.LexicalDecl? {
      SupportedBindingsAreDirect(keeps, cfg, s.bindings, 0, a, false);
    } else if s.Block? {
      SupportedStmtsAreDirect(keeps, cfg, s.list, a.(vars := [map[]] + a.vars));
    } else if s.If? {
      SupportedIfIsDirect(keeps, cfg, s, a);
    }
  }

  lemma {:induction false} SupportedIfIsDirect(keeps: string -> bool, cfg: Script, s: Stmt, a: Abs)
    requires a.vars != [] && s.If? && SupportedStmt(keeps, cfg, s, a)
    ensures DirectStmt({}, s) && Declares(s).None?
    decreases s, 0
  {
    hide AbsExpr; hide AbsStmt;
    SupportedIsDirect(keeps, cfg, s.test, a);
    var t := AbsExpr(cfg, s.test, a).after;
    if s.test.BooleanLiteral? {
      SupportedStmtIsDirect(keeps, cfg, if s.test.truth then s.consequent else s.alternate, t);
    } else {
      SupportedStmtIsDirect(keeps, cfg, s.consequent, t);
      SupportedStmtIsDirect(keeps, cfg, s.alternate, t.(flows := AbsStmt(cfg, s.consequent, t).flows));
    }
  }

  lemma {:induction false} SupportedBindingsAreDirect(keeps: string -> bool, cfg: Script, bs: seq<Binding>, level: nat,
                                                      a: Abs, hoisted: bool)
    requires level < |a.vars| && SupportedBindings(keeps, cfg, bs, level, a, hoisted)
    ensures DirectBindings({}, bs)
    decreases bs, 0
  {
    hide AbsExpr; hide AbsBindings;
    if bs != [] {
      var init, last := bs[..|bs| - 1], bs[|bs| - 1];
      SupportedBindingsAreDirect(keeps, cfg, init, level, a, hoisted);
      if !last.initializer.NoExpr? {
        SupportedIsDirect(keeps, cfg, last.initializer, AbsBindings(cfg, init, level, a));
      }
      assert forall i :: 0 <= i < |init| ==> bs[i] == init[i];
    }
  }

  lemma {:induction false} SupportedStmtsAreDirect(keeps: string -> bool, cfg: Script, list: seq<Stmt>, a: Abs)
    requires a.vars != [] && SupportedStmts(keeps, cfg, list, a)
    ensures DirectStmts({}, list)
    decreases list, 0
  {
    hide AbsExpr; hide AbsStmts;
    if list != [] {
      var init, last := list[..|list| - 1], list[|list| - 1];
      SupportedStmtsAreDirect(keeps, cfg, init, a);
      SupportedStmtIsDirect(keeps, cfg, last, AbsStmts(cfg, init, a));
      assert forall i :: 0 <= i < |init| ==> list[i] == init[i];
    }
  }

  /**
   * The data-flow analysis of a script. It always ends; and if it reports no problem, then on programs
   * whose functions are declared outermost it reports exactly what the specification computes. So for
   * supported programs no input reaches a sink unreported in any world, and none reaches a sink at which it
   * is not reported unless what was put outside may come back.
   */
  method AnalyzeFlows(program: seq<Stmt>, cfg: Script) returns (flows: seq<Flow>, problem: string)
    ensures |flows| <= 64
    ensures var list := ScriptBody(cfg, program);
            problem == "" && DirectProgram(Declared(list).Keys, list) ==> flows == AbsProgram(cfg, list).flows
    ensures var list, c := ScriptBody(cfg, program), Outset(cfg);
            problem == "" ==>
              forall w: World, f ::
                SupportedStmts(w.keeps, c, list, EMPTY) && f in RunStmts(w, c, list, START).reached ==>
                  f.source in SourcesOf(flows) && (!w.Echoing() ==> f in flows)
  {
    hide Closed; hide Tracks; hide AbsStmts; hide RunStmts; hide SupportedStmts; hide DirectStmts; hide DirectProgram;
    var a := new FlowAnalyzer(cfg);
    var s := new FlowScope(null, true);
    ghost var list, c := ScriptBody(cfg, program), Outset(cfg);
    ghost var r, k := RootTrack(s, cfg, list);
    ghost var r2, k2;
    var ignored;
    var statements := program;
    if cfg.shift > 0 && |statements| == 1 {
      if statements[0].FunctionDecl? {
        statements := statements[0].list;
      }
    }
    ignored, r2, k2 := a.List(statements, s, r, k);
    flows, problem := a.flows, a.problem;
    if problem == "" {
      forall w: World, f | SupportedStmts(w.keeps, c, list, EMPTY) && f in RunStmts(w, c, list, START).reached
        ensures f.source in SourcesOf(flows) && (!w.Echoing() ==> f in flows)
      {
        SupportedStmtsAreDirect(w.keeps, c, list, EMPTY);
        StatementsAreAProgram(cfg, list);
        FlowsCoverEveryRun(w, c, list);
      }
    }
  }

  /**
   * The entry point on a program that writes a storage entry into the page, which happens in every
   * world. If no problem is reported, the flow is, exactly when the key has at most 128 bytes.
   */
  method AnalyzeStorageWrite(program: seq<Stmt>, cfg: Script, at: Pos, read: Pos, inner: Pos, storage: string,
                             key: string)
    returns (flows: seq<Flow>, problem: string)
    requires ScriptBody(cfg, program) == StorageWrite(at, read, inner, storage, key)
    requires StorageObject(storage) && cfg.Inside(read) && Reportable(cfg, at)
    ensures forall w ::
            RunStmts(w, cfg, ScriptBody(cfg, program), START).reached == {StorageFlow(cfg, at, read, storage, key)}
    ensures problem == "" ==> flows == if |key| <= 128 then [StorageFlow(cfg, at, read, storage, key)] else []
  {
    hide RunStmts; hide AbsStmts; hide SupportedStmts; hide StorageWrite;
    flows, problem := AnalyzeFlows(program, cfg);
    StorageWriteIsDirect(at, read, inner, storage, key);
    StatementsAreAProgram(cfg, ScriptBody(cfg, program));
    StorageWriteSeen(Outset(cfg), at, read, inner, storage, key);
    forall w | true
      ensures RunStmts(w, cfg, ScriptBody(cfg, program), START).reached == {StorageFlow(cfg, at, read, storage, key)}
    {
      StorageWriteRuns(w, cfg, at, read, inner, storage, key);
    }
  }

  /**
   * The entry point on a program that stores an input in a property that is no sink and then writes some
   * value into the page: if it reports no problem, it reports nothing, although the input reaches the
   * page wherever it comes back.
   */
  method AnalyzePropertyStore(program: seq<Stmt>, cfg: Script, at: Pos, inner: Pos, target: Expr, input: Expr,
                              back: string)
    returns (flows: seq<Flow>, problem: string)
    requires ScriptBody(cfg, program) == ThenWrite(PropertyStore(at, target, input), at, inner, back)
    requires Member(target).Some? && !SinkProperty(Member(target).value.1)
    requires SourceKind(GlobalPath(input, {})).Some? && cfg.Inside(Node(input)) && SourceKind(back).None?
    ensures problem == "" ==> flows == []
    ensures forall w: World :: (forall now, x :: w.echoes(now, x)) ==>
              Flow(InputOf(cfg, input), "document.write", at.start - cfg.shift, at.end - cfg.shift)
              in RunStmts(w, cfg, ScriptBody(cfg, program), START).reached
  {
    hide RunStmts; hide AbsStmts; hide SupportedStmts; hide ThenWrite; hide InputOf; hide RunExpr; hide AbsExpr;
    var first := PropertyStore(at, target, input);
    flows, problem := AnalyzeFlows(program, cfg);
    StoreThenWriteIsDirect(at, inner, target, input, back);
    StatementsAreAProgram(cfg, ScriptBody(cfg, program));
    PropertyStoreSeen(Outset(cfg), at, target, input);
    ThenWriteSeen(Outset(cfg), first, at, inner, back);
    forall w: World | forall now, x :: w.echoes(now, x)
      ensures Flow(InputOf(cfg, input), "document.write", at.start - cfg.shift, at.end - cfg.shift)
              in RunStmts(w, cfg, ScriptBody(cfg, program), START).reached
    {
      PropertyStoreRuns(w, cfg, at, target, input);
      ThenWriteRuns(w, cfg, first, at, inner, back);
      ComesBack(w, cfg, at, inner, back, RunExpr(w, cfg, first, START).after, InputOf(cfg, input));
    }
  }

  /**
   * The entry point on a program that declares a function, whose body writes one of its parameters into the
   * page, and calls it with inputs: if it reports no problem, it reports exactly the flow of the argument in
   * that parameter's place.
   */
  method AnalyzeCall(program: seq<Stmt>, cfg: Script, at: Pos, inner: Pos, name: string, params: seq<Target>,
                     shown: string, args: seq<Expr>, ghost i: nat)
    returns (flows: seq<Flow>, problem: string)
    requires ScriptBody(cfg, program) == ShowProgram(at, inner, name, params, shown, args)
    requires IsParameter(params, i, shown) && forall j: nat :: IsParameter(params, j, shown) ==> j <= i
    requires OrdinaryNames(name, params) && AllInputs(cfg, name, args) && Reportable(cfg, at)
    ensures problem == "" ==>
              flows == if i < |args| then
                         [Flow(InputOf(cfg, args[i]), "document.write", at.start - cfg.shift, at.end - cfg.shift)]
                       else []
  {
    hide AbsProgram; hide DirectProgram; hide SupportedStmts; hide RunStmts; hide AllInputs;
    flows, problem := AnalyzeFlows(program, cfg);
    ShowProgramIsDirect(cfg, at, inner, name, params, shown, args);
    ArgumentReachesTheBody(cfg, at, inner, name, params, shown, args, i);
  }

  /** The same for a function that returns the parameter, where the program writes what the call delivers. */
  method AnalyzeReturn(program: seq<Stmt>, cfg: Script, at: Pos, inner: Pos, name: string, params: seq<Target>,
                       given: string, args: seq<Expr>, ghost i: nat)
    returns (flows: seq<Flow>, problem: string)
    requires ScriptBody(cfg, program) == ReturnProgram(at, inner, name, params, given, args)
    requires IsParameter(params, i, given) && forall j: nat :: IsParameter(params, j, given) ==> j <= i
    requires OrdinaryNames(name, params) && AllInputs(cfg, name, args) && Reportable(cfg, at)
    ensures problem == "" ==>
              flows == if i < |args| then
                         [Flow(InputOf(cfg, args[i]), "document.write", at.start - cfg.shift, at.end - cfg.shift)]
                       else []
  {
    hide AbsProgram; hide DirectProgram; hide SupportedStmts; hide RunStmts; hide AllInputs;
    flows, problem := AnalyzeFlows(program, cfg);
    ReturnProgramIsDirect(cfg, at, inner, name, params, given, args);
    ReturnedArgumentIsDelivered(cfg, at, inner, name, params, given, args, i);
  }

  /**
   * The entry point on a program that writes a query parameter into the page: if it reports no problem, it
   * reports exactly the flow of that parameter when it is one of the query or of the fragment and its key
   * has at most 128 bytes.
   */
  method AnalyzeParameter(program: seq<Stmt>, cfg: Script, at: Pos, read: Pos, inner: Pos, input: Expr, key: string)
    returns (flows: seq<Flow>, problem: string)
    requires ScriptBody(cfg, program) == ParameterProgram(at, read, inner, input, key)
    requires ReadsInputInside(cfg, "", input) && cfg.Inside(read) && Reportable(cfg, at)
    ensures problem == "" ==>
              var kind := InputOf(cfg, input).kind;
              flows == if (kind == "query" || kind == "fragment") && |key| <= 128 then
                         [Flow(Source(kind, key, read.start - cfg.shift, read.end - cfg.shift), "document.write",
                               at.start - cfg.shift, at.end - cfg.shift)]
                       else []
  {
    hide AbsProgram; hide AbsStmts; hide DirectProgram; hide DirectStmts; hide SupportedStmts; hide RunStmts;
    hide ParameterProgram;
    flows, problem := AnalyzeFlows(program, cfg);
    ParameterProgramIsDirect(at, read, inner, input, key);
    StatementsAreAProgram(cfg, ParameterProgram(at, read, inner, input, key));
    ParameterReachesThePage(cfg, at, read, inner, input, key);
  }

  lemma StoreThenWriteIsDirect(at: Pos, inner: Pos, target: Expr, input: Expr, back: string)
    requires SourceKind(GlobalPath(input, {})).Some?
    ensures DirectStmts({}, ThenWrite(PropertyStore(at, target, input), at, inner, back))
  {
    PathMeansReference(input, {}, 0);
    ReferenceIsPure(Script(0, 0, s => s, (s, t) => false), {}, input, EMPTY);
    DirectCall(WriteCall(at, inner, Identifier(inner, back)));
  }

  lemma StorageWriteIsDirect(at: Pos, read: Pos, inner: Pos, storage: string, key: string)
    ensures DirectStmts({}, StorageWrite(at, read, inner, storage, key))
  {
    var call := StorageCall(read, inner, storage, key);
    DirectCall(call);
    DirectCall(WriteCall(at, inner, call));
  }

  lemma DirectCall(e: Expr)
    requires e.Call? && PlainReference(e.callee) && forall i :: 0 <= i < |e.args| ==> Direct({}, e.args[i])
    ensures Direct({}, e)
  {
    assert DirectList({}, e.args);
  }

  /** The outermost scope before the first statement; it is tracked if the program is in the fragment. */
  lemma RootTrack(s: FlowScope, cfg: Script, list: seq<Stmt>) returns (r: Region, k: Track)
    requires s.values == map[] && s.parent == null && s.isFunction && s.depth == 0
    ensures r == Region({s}, {}) && Closed(r) && Tracks(k, s, r)
    ensures k.Tracked? <==> DirectProgram(Declared(list).Keys, list)
    ensures k.Tracked? ==> AtOutset(k, list)
  {
    hide DirectProgram;
    r := Region({s}, {});
    k := if DirectProgram(Declared(list).Keys, list) then Tracked([s], [map[]], map[], 0) else Untracked;
    assert ParentIn(s, r);
    NothingHeld();
  }
}
