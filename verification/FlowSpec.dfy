/**
 * What the data-flow analysis computes on programs whose functions are declared outermost, written as
 * functions on a chain of variable tables (innermost scope first). The analyzer object is proved
 * to compute exactly this on such programs unless it hits a limit, and without functions and loops this
 * is proved sound.
 */
module FlowSpec {
  import opened Prelude
  import opened FlowSyntax

  /** The sources each variable of one scope may carry. */
  type Vars = map<string, seq<Source>>

  /** How many calls may be nested. */
  const MAX_CALLS: nat := 8

  /** A function as it is written. */
  datatype Fn = Fn(params: seq<Target>, body: Body)

  /**
   * Where the script starts in the parsed text and how long it is, with the two library functions
   * on attribute names that the analysis calls (strings.ToLower and strings.EqualFold). The rest says
   * where in the program the analysis is: the functions declared outermost, the number of scopes around
   * the current function, and how many calls may still be nested.
   */
  datatype Script = Script(shift: int, length: int, lower: string -> string, equalFold: (string, string) -> bool,
                           functions: map<string, Fn> := map[], around: nat := 0, calls: nat := MAX_CALLS)
  {
    /** Does a node lie inside the script and contain something? */
    predicate Inside(at: Pos) {
      0 <= at.start - shift < at.end - shift <= length
    }
  }

  datatype Abs = Abs(vars: seq<Vars>, flows: seq<Flow>)

  /** The state before the first statement: one empty scope and no flows. */
  const EMPTY: Abs := Abs([map[]], [])

  /** `left` followed by those sources of `right` that it lacks. */
  function Join(left: seq<Source>, right: seq<Source>): (r: seq<Source>)
    ensures forall x :: x in r <==> x in left || x in right
  {
    if right == [] then left
    else
      var rest := Join(left, right[..|right| - 1]);
      var last := right[|right| - 1];
      assert right == right[..|right| - 1] + [last];
      if last in rest then rest else rest + [last]
  }

  lemma JoinNone(left: seq<Source>)
    ensures Join(left, []) == left
  {
  }

  lemma JoinNext(left: seq<Source>, right: seq<Source>, i: nat)
    requires i < |right|
    ensures var rest := Join(left, right[..i]);
            Join(left, right[..i + 1]) == if right[i] in rest then rest else rest + [right[i]]
  {
    assert right[..i + 1][..i] == right[..i];
  }

  lemma {:induction false} JoinGrows(left: seq<Source>, right: seq<Source>, i: nat)
    requires i <= |right|
    ensures |Join(left, right[..i])| <= |Join(left, right)|
    decreases |right| - i
  {
    hide Join;
    if i < |right| {
      JoinNext(left, right, i);
      JoinGrows(left, right, i + 1);
    } else {
      assert right[..i] == right;
    }
  }

  function JoinAll(values: seq<seq<Source>>): (r: seq<Source>)
    ensures forall x :: x in r <==> exists v :: v in values && x in v
  {
    if values == [] then []
    else
      assert values == values[..|values| - 1] + [values[|values| - 1]];
      Join(JoinAll(values[..|values| - 1]), values[|values| - 1])
  }

  /** The source a node is, unless it lies outside the script or its key is too long. */
  function SourceAt(cfg: Script, at: Pos, kind: string, key: string): seq<Source> {
    if !cfg.Inside(at) || |key| > 128 then []
    else [Source(kind, key, at.start - cfg.shift, at.end - cfg.shift)]
  }

  /** Records that each of `sources` may reach the sink at a node. */
  function Record(cfg: Script, flows: seq<Flow>, at: Pos, sink: string, sources: seq<Source>): (r: seq<Flow>)
    ensures flows <= r
    ensures forall f :: f in r ==> f in flows || f.source in sources
    ensures 0 <= at.start - cfg.shift && at.end - cfg.shift <= cfg.length ==>
              forall x :: x in sources ==> Flow(x, sink, at.start - cfg.shift, at.end - cfg.shift) in r
  {
    if sources == [] then flows
    else
      var rest := Record(cfg, flows, at, sink, sources[..|sources| - 1]);
      var f := Flow(sources[|sources| - 1], sink, at.start - cfg.shift, at.end - cfg.shift);
      assert sources == sources[..|sources| - 1] + [f.source];
      if f.start < 0 || f.end > cfg.length || f in rest then rest else rest + [f]
  }

  lemma RecordNone(cfg: Script, flows: seq<Flow>, at: Pos, sink: string)
    ensures Record(cfg, flows, at, sink, []) == flows
  {
  }

  lemma RecordNext(cfg: Script, flows: seq<Flow>, at: Pos, sink: string, sources: seq<Source>, i: nat)
    requires i < |sources|
    ensures var rest := Record(cfg, flows, at, sink, sources[..i]);
            var f := Flow(sources[i], sink, at.start - cfg.shift, at.end - cfg.shift);
            Record(cfg, flows, at, sink, sources[..i + 1])
            == if f.start < 0 || f.end > cfg.length || f in rest then rest else rest + [f]
  {
    assert sources[..i + 1][..i] == sources[..i];
  }

  /** The same place in the text and the same library functions. */
  ghost predicate SameText(cfg: Script, other: Script) {
    && cfg.shift == other.shift && cfg.length == other.length
    && cfg.lower == other.lower && cfg.equalFold == other.equalFold
  }

  /** Only the place of the script matters. */
  lemma {:induction false} RecordAnywhere(cfg: Script, other: Script, flows: seq<Flow>, at: Pos, sink: string,
                                          sources: seq<Source>)
    requires SameText(cfg, other)
    ensures Record(cfg, flows, at, sink, sources) == Record(other, flows, at, sink, sources)
    decreases |sources|
  {
    hide Record;
    if sources == [] {
      RecordNone(cfg, flows, at, sink);
      RecordNone(other, flows, at, sink);
    } else {
      var n := |sources| - 1;
      RecordAnywhere(cfg, other, flows, at, sink, sources[..n]);
      RecordNext(cfg, flows, at, sink, sources, n);
      RecordNext(other, flows, at, sink, sources, n);
      assert sources[..n + 1] == sources;
    }
  }

  lemma {:induction false} RecordGrows(cfg: Script, flows: seq<Flow>, at: Pos, sink: string, sources: seq<Source>,
                                       i: nat)
    requires i <= |sources|
    ensures |Record(cfg, flows, at, sink, sources[..i])| <= |Record(cfg, flows, at, sink, sources)|
    decreases |sources| - i
  {
    hide Record;
    if i < |sources| {
      RecordNext(cfg, flows, at, sink, sources, i);
      RecordGrows(cfg, flows, at, sink, sources, i + 1);
    } else {
      assert sources[..i] == sources;
    }
  }

  /** The names bound anywhere in the chain. */
  function Bound(vars: seq<Vars>): set<string> {
    set i, n | 0 <= i < |vars| && n in vars[i] :: n
  }

  /** What a variable holds: the innermost binding counts, an unbound name holds nothing. */
  function Lookup(vars: seq<Vars>, name: string): seq<Source> {
    if vars == [] then [] else if name in vars[0] then vars[0][name] else Lookup(vars[1..], name)
  }

  /** The innermost scope that binds the name is the one looked at. */
  lemma {:induction false} LookupAt(vars: seq<Vars>, name: string, i: nat)
    requires i <= |vars| && forall j :: 0 <= j < i ==> name !in vars[j]
    ensures i < |vars| && name in vars[i] ==> Lookup(vars, name) == vars[i][name]
    ensures i == |vars| ==> Lookup(vars, name) == []
  {
    if i > 0 {
      LookupAt(vars[1..], name, i - 1);
    }
  }

  /** Assigns to the innermost binding of a name, or adds one to the innermost scope. */
  function AssignTo(vars: seq<Vars>, name: string, value: seq<Source>): (r: seq<Vars>)
    requires vars != []
    ensures |r| == |vars|
  {
    if name in Bound(vars) then Update(vars, name, value) else vars[0 := vars[0][name := value]]
  }

  function Update(vars: seq<Vars>, name: string, value: seq<Source>): (r: seq<Vars>)
    ensures |r| == |vars|
  {
    if vars == [] then []
    else if name in vars[0] then [vars[0][name := value]] + vars[1..]
    else [vars[0]] + Update(vars[1..], name, value)
  }

  /** Assigning changes exactly the first scope that binds the name, or the innermost one. */
  lemma {:induction false} UpdateAt(vars: seq<Vars>, name: string, value: seq<Source>, i: nat)
    requires i < |vars| && name in vars[i] && forall j :: 0 <= j < i ==> name !in vars[j]
    ensures Update(vars, name, value) == vars[i := vars[i][name := value]]
  {
    if i > 0 {
      UpdateAt(vars[1..], name, value, i - 1);
    }
  }

  /** Two branches of one scope come together: a variable may hold what it holds after either. */
  function MergeVars(out: Vars, left: Vars, right: Vars): Vars {
    map n | n in out.Keys + left.Keys + right.Keys ::
      if n in left then Join(left[n], if n in right then right[n] else [])
      else if n in right then right[n]
      else out[n]
  }

  function MergeChain(out: seq<Vars>, left: seq<Vars>, right: seq<Vars>): (r: seq<Vars>)
    requires |left| == |right| == |out|
    ensures |r| == |out|
  {
    seq(|out|, i requires 0 <= i < |out| => MergeVars(out[i], left[i], right[i]))
  }

  /** The value an assignment or initializer delivers, with the state after it. */
  datatype Outcome = Outcome(value: seq<Source>, after: Abs)
  datatype Outcomes = Outcomes(values: seq<seq<Source>>, after: Abs)

  function AbsExpr(cfg: Script, e: Expr, a: Abs): (r: Outcome)
    requires a.vars != []
    ensures |r.after.vars| == |a.vars| && a.flows <= r.after.flows
    decreases cfg.calls, e, 1
  {
    var kind := SourceKind(GlobalPath(e, Bound(a.vars)));
    if kind.Some? then Outcome(SourceAt(cfg, Node(e), kind.value, ""), a)
    else match e
      case Identifier(_, name) => Outcome(Lookup(a.vars, name), a)
      case Assign(_, compound, left, right) =>
        var r := AbsExpr(cfg, right, a);
        if compound then
          var l := AbsExpr(cfg, left, r.after);
          var value := Join(l.value, r.value);
          Outcome(value, AbsStore(cfg, left, value, l.after))
        else Outcome(r.value, AbsStore(cfg, left, r.value, r.after))
      case Binary(_, _, _, _) => AbsBinary(cfg, e, a)
      case Template(_, parts) =>
        var r := AbsList(cfg, parts, a);
        Outcome(JoinAll(r.values), r.after)
      case Sequence(_, parts) =>
        var r := AbsList(cfg, parts, a);
        Outcome(if r.values == [] then [] else r.values[|r.values| - 1], r.after)
      case Conditional(_, _, _, _) => AbsConditional(cfg, e, a)
      case New(_, _, _) => Outcome([], AbsNew(cfg, e, a).after)
      case Call(_, _, _) => AbsCall(cfg, e, a)
      case Await(_, operand) => AbsExpr(cfg, operand, a)
      case Unary(_, _, operand) => AbsExpr(cfg, operand, a)
      case _ => Outcome([], a)
  }

  /** Storing a value in a variable or a property. */
  function AbsStore(cfg: Script, left: Expr, value: seq<Source>, a: Abs): (r: Abs)
    requires a.vars != []
    ensures |r.vars| == |a.vars| && a.flows <= r.flows
  {
    if left.Identifier? then a.(vars := AssignTo(a.vars, left.name, value))
    else
      var m := Member(left);
      if m.Some? && SinkProperty(m.value.1) then a.(flows := Record(cfg, a.flows, Node(left), m.value.1, value)) else a
  }

  /** The query parameters an object was made from, if any, and the state after it is made. */
  datatype Made = Made(kind: string, after: Abs)

  /** Object creation looks at nothing but the text of query parameters. */
  function AbsNew(cfg: Script, e: Expr, a: Abs): (r: Made)
    requires a.vars != [] && e.New?
    ensures |r.after.vars| == |a.vars| && a.flows <= r.after.flows
    decreases cfg.calls, e, 0
  {
    if GlobalPath(e.callee, Bound(a.vars)) in {"URLSearchParams", "window.URLSearchParams"} && e.args != [] then
      var x := AbsExpr(cfg, e.args[0], a);
      Made(if |x.value| == 1 then x.value[0].kind else "", x.after)
    else Made("", a)
  }

  /** The kind of query parameters an expression delivers. */
  function AbsKind(cfg: Script, e: Expr, a: Abs): string
    requires a.vars != []
    decreases cfg.calls, e, 1
  {
    if e.New? && SourceKind(GlobalPath(e, Bound(a.vars))).None? then AbsNew(cfg, e, a).kind else ""
  }

  function AbsBinary(cfg: Script, e: Expr, a: Abs): (r: Outcome)
    requires a.vars != [] && e.Binary?
    ensures |r.after.vars| == |a.vars| && a.flows <= r.after.flows
    decreases cfg.calls, e, 0
  {
    var l := AbsExpr(cfg, e.left, a);
    if SkipsRight(e) then l
    else
      var r := AbsExpr(cfg, e.right, l.after);
      Outcome(Join(l.value, r.value),
              if MayNotRun(e) then Abs(MergeChain(l.after.vars, l.after.vars, r.after.vars), r.after.flows)
                  else r.after)
  }

  /** A literal left operand that decides the result: the right operand never runs. */
  predicate SkipsRight(e: Expr)
    requires e.Binary?
  {
    e.left.BooleanLiteral? && !e.op.OtherBinary? && (e.op.Coalesce? || e.left.truth == e.op.LogicalOr?)
  }

  /** The right operand runs or not, depending on the left one. */
  predicate MayNotRun(e: Expr)
    requires e.Binary?
  {
    !e.left.BooleanLiteral? && !e.op.OtherBinary?
  }

  function AbsConditional(cfg: Script, e: Expr, a: Abs): (r: Outcome)
    requires a.vars != [] && e.Conditional?
    ensures |r.after.vars| == |a.vars| && a.flows <= r.after.flows
    decreases cfg.calls, e, 0
  {
    var t := AbsExpr(cfg, e.test, a);
    if e.test.BooleanLiteral? then AbsExpr(cfg, if e.test.truth then e.consequent else e.alternate, t.after)
    else
      var l := AbsExpr(cfg, e.consequent, t.after);
      var r := AbsExpr(cfg, e.alternate, t.after.(flows := l.after.flows));
      Outcome(Join(l.value, r.value), Abs(MergeChain(t.after.vars, l.after.vars, r.after.vars), r.after.flows))
  }

  function AbsList(cfg: Script, es: seq<Expr>, a: Abs): (r: Outcomes)
    requires a.vars != []
    ensures |r.after.vars| == |a.vars| && a.flows <= r.after.flows && |r.values| == |es|
    decreases cfg.calls, es, 0
  {
    if es == [] then Outcomes([], a)
    else
      var init := AbsList(cfg, es[..|es| - 1], a);
      var last := AbsExpr(cfg, es[|es| - 1], init.after);
      Outcomes(init.values + [last.value], last.after)
  }

  /** Is the function one that the program declares outermost? */
  predicate CallsDeclared(cfg: Script, e: Expr)
    requires e.Call?
  {
    e.callee.Identifier? && e.callee.name in cfg.functions
  }

  /** A call of a function of the program, or of one that a global path names. */
  function AbsCall(cfg: Script, e: Expr, a: Abs): (r: Outcome)
    requires a.vars != [] && e.Call?
    ensures |r.after.vars| == |a.vars| && a.flows <= r.after.flows
    decreases cfg.calls, e, 0, 1
  {
    var args := AbsList(cfg, e.args, a);
    if CallsDeclared(cfg, e) then AbsInvoke(cfg, e, args) else AbsCallAfter(cfg, e, args)
  }

  /** The body of a function of the program, which sees the outermost scope and nothing else of the caller's. */
  function AbsInvoke(cfg: Script, e: Expr, args: Outcomes): (r: Outcome)
    requires args.after.vars != [] && e.Call? && CallsDeclared(cfg, e)
    ensures |r.after.vars| == |args.after.vars| && args.after.flows <= r.after.flows
    decreases cfg.calls, e, 0, 0
  {
    if cfg.calls == 0 then Outcome([], args.after)
    else
      var last := |args.after.vars| - 1;
      var x := AbsFunction(cfg, cfg.functions[e.callee.name], args.values,
                           Abs([args.after.vars[last]], args.after.flows));
      Outcome(x.value, Abs(args.after.vars[last := x.after.vars[0]], x.after.flows))
  }

  /** A function that closes over the scopes `a.vars`: its body runs in a scope that binds the arguments. */
  function AbsFunction(cfg: Script, f: Fn, values: seq<seq<Source>>, a: Abs): (r: Outcome)
    requires cfg.calls > 0
    ensures |r.after.vars| == |a.vars| && a.flows <= r.after.flows
    decreases cfg.calls - 1, f.body, 2
  {
    var x := AbsBody(cfg.(around := |a.vars|, calls := cfg.calls - 1), f.body,
                     a.(vars := [AbsParameters(f.params, values)] + a.vars));
    x.(after := x.after.(vars := x.after.vars[1..]))
  }

  /** The named parameters bound to the arguments; a missing argument is unknown. */
  function AbsParameters(params: seq<Target>, values: seq<seq<Source>>): Vars {
    if params == [] then map[]
    else
      var n := |params| - 1;
      var rest := AbsParameters(params[..n], values);
      if params[n].Named? then rest[params[n].name := if n < |values| then values[n] else []] else rest
  }

  function AbsBody(cfg: Script, body: Body, a: Abs): (r: Outcome)
    requires a.vars != []
    ensures |r.after.vars| == |a.vars| && a.flows <= r.after.flows
    decreases cfg.calls, body, 1
  {
    match body
    case BlockBody(list) => Outcome(AbsReturned(cfg, list, a), AbsStmts(cfg, list, a))
    case ExpressionBody(value) => AbsExpr(cfg, value, a)
  }

  /** The call itself, once its arguments are evaluated. */
  function AbsCallAfter(cfg: Script, e: Expr, args: Outcomes): (r: Outcome)
    requires args.after.vars != [] && e.Call?
    ensures r.after.vars == args.after.vars && args.after.flows <= r.after.flows
    decreases cfg.calls, e, 0, 0
  {
    var path := GlobalPath(e.callee, Bound(args.after.vars));
    var m := Member(e.callee);
    if m.None? then
      var value := JoinAll(args.values);
      Outcome(value, AbsSinkCall(cfg, e.at, path, args.values, value, args.after))
    else
      var (left, name) := m.value;
      var key := LiteralKey(e.args);
      var kind := AbsKind(cfg, left, args.after);
      var storage := TrimWindow(GlobalPath(left, Bound(args.after.vars)));
      if key.Some? && name == "get" && (kind == "query" || kind == "fragment")
      then Outcome(SourceAt(cfg, e.at, kind, key.value), args.after)
      else if key.Some? && name == "getItem" && StorageObject(storage)
      then Outcome(SourceAt(cfg, e.at, storage, key.value), args.after)
      else
        var marked := AbsMethodSink(cfg, e.at, name, key, args.values, args.after);
        var value := Join(JoinAll(args.values), AbsExpr(cfg, left, args.after).value);
        Outcome(value, AbsSinkCall(cfg, e.at, path, args.values, value, marked))
  }

  /** Sinks among the methods of an object. */
  function AbsMethodSink(cfg: Script, at: Pos, name: string, key: Option<string>, args: seq<seq<Source>>,
                         a: Abs): (r: Abs)
    ensures r.vars == a.vars && a.flows <= r.flows
  {
    if |args| <= 1 then a
    else if name == "insertAdjacentHTML" then a.(flows := Record(cfg, a.flows, at, name, args[1]))
    else if name == "setAttribute" && key.Some? && ScriptAttribute(cfg, key.value)
    then a.(flows := Record(cfg, a.flows, at, "setAttribute(" + cfg.lower(key.value) + ")", args[1]))
    else a
  }

  /** Attributes whose value is script or markup. */
  predicate ScriptAttribute(cfg: Script, key: string) {
    "on" <= cfg.lower(key) || cfg.equalFold(key, "srcdoc")
  }

  /** Sinks among the functions named by a path. */
  function AbsSinkCall(cfg: Script, at: Pos, path: string, args: seq<seq<Source>>, value: seq<Source>, a: Abs): (r: Abs)
    ensures r.vars == a.vars && a.flows <= r.flows
  {
    if SinkFunction(path) then a.(flows := Record(cfg, a.flows, at, path, value))
    else if TimerFunction(path) && args != [] then a.(flows := Record(cfg, a.flows, at, path, args[0]))
    else a
  }

  function AbsStmt(cfg: Script, s: Stmt, a: Abs): (r: Abs)
    requires a.vars != []
    ensures |r.vars| == |a.vars| && a.flows <= r.flows
    decreases cfg.calls, s, 1
  {
    match s
    case ExprStmt(e) => AbsExpr(cfg, e, a).after
    case Return(e) => AbsExpr(cfg, e, a).after
    case Export(decl) =>
      (match decl
       case ExprStmt(e) => AbsExpr(cfg, e, a).after
       case VarDecl(_) => AbsStmt(cfg, decl, a)
       case LexicalDecl(_) => AbsStmt(cfg, decl, a)
       case _ => a)
    case VarDecl(bindings) => AbsBindings(cfg, bindings, FunctionLevel(cfg, a), a)
    case LexicalDecl(bindings) => AbsBindings(cfg, bindings, 0, a)
    case Block(list) =>
      var r := AbsStmts(cfg, list, a.(vars := [map[]] + a.vars));
      r.(vars := r.vars[1..])
    case If(_, _, _) => AbsIf(cfg, s, a)
    case While(_, _) => AbsWhile(cfg, s, a)
    case _ => a
  }

  /** The scope of the current function, in which `var` binds. */
  function FunctionLevel(cfg: Script, a: Abs): (r: nat)
    requires a.vars != []
    ensures r < |a.vars|
  {
    if cfg.around < |a.vars| then |a.vars| - 1 - cfg.around else 0
  }

  function AbsIf(cfg: Script, s: Stmt, a: Abs): (r: Abs)
    requires a.vars != [] && s.If?
    ensures |r.vars| == |a.vars| && a.flows <= r.flows
    decreases cfg.calls, s, 0
  {
    var t := AbsExpr(cfg, s.test, a).after;
    if s.test.BooleanLiteral? then AbsStmt(cfg, if s.test.truth then s.consequent else s.alternate, t)
    else
      var l := AbsStmt(cfg, s.consequent, t);
      var r := AbsStmt(cfg, s.alternate, t.(flows := l.flows));
      Abs(MergeChain(t.vars, l.vars, r.vars), r.flows)
  }

  /** A loop is analysed as if its body ran once or not at all. */
  function AbsWhile(cfg: Script, s: Stmt, a: Abs): (r: Abs)
    requires a.vars != [] && s.While?
    ensures |r.vars| == |a.vars| && a.flows <= r.flows
    decreases cfg.calls, s, 0
  {
    var t := AbsExpr(cfg, s.test, a).after;
    if NeverRuns(s) then t
    else
      var b := AbsStmt(cfg, s.body, t);
      Abs(MergeChain(t.vars, t.vars, b.vars), b.flows)
  }

  predicate NeverRuns(s: Stmt)
    requires s.While?
  {
    s.test.BooleanLiteral? && !s.test.truth
  }

  function AbsBindings(cfg: Script, bs: seq<Binding>, level: nat, a: Abs): (r: Abs)
    requires level < |a.vars|
    ensures |r.vars| == |a.vars| && a.flows <= r.flows
    decreases cfg.calls, bs, 0
  {
    if bs == [] then a
    else
      var init := AbsBindings(cfg, bs[..|bs| - 1], level, a);
      var b := bs[|bs| - 1];
      if b.target.Pattern? then init
      else
        assert b.initializer < b;
        var r := AbsExpr(cfg, b.initializer, init);
        r.after.(vars := r.after.vars[level := r.after.vars[level][b.target.name := r.value]])
  }

  function AbsStmts(cfg: Script, list: seq<Stmt>, a: Abs): (r: Abs)
    requires a.vars != []
    ensures |r.vars| == |a.vars| && a.flows <= r.flows
    decreases cfg.calls, list, 0
  {
    if list == [] then a else AbsStmt(cfg, list[|list| - 1], AbsStmts(cfg, list[..|list| - 1], a))
  }

  /** What a statement returns, as far as it returns anything. */
  function AbsGiven(cfg: Script, s: Stmt, a: Abs): seq<Source>
    requires a.vars != []
    decreases cfg.calls, s, 2
  {
    match s
    case Return(e) => AbsExpr(cfg, e, a).value
    case Block(list) => AbsReturned(cfg, list, a.(vars := [map[]] + a.vars))
    case If(test, consequent, alternate) =>
      var t := AbsExpr(cfg, test, a).after;
      if test.BooleanLiteral? then AbsGiven(cfg, if test.truth then consequent else alternate, t)
      else
        Join(AbsGiven(cfg, consequent, t), AbsGiven(cfg, alternate, t.(flows := AbsStmt(cfg, consequent, t).flows)))
    case While(test, body) => if NeverRuns(s) then [] else AbsGiven(cfg, body, AbsExpr(cfg, test, a).after)
    case _ => []
  }

  /** What the statements of a list return, all taken together. */
  function AbsReturned(cfg: Script, list: seq<Stmt>, a: Abs): seq<Source>
    requires a.vars != []
    decreases cfg.calls, list, 1
  {
    if list == [] then []
    else
      var init := list[..|list| - 1];
      Join(AbsReturned(cfg, init, a), AbsGiven(cfg, list[|list| - 1], AbsStmts(cfg, init, a)))
  }

  // ---------------------------------------------------------------------------------------------
  // Functions declared outermost
  // ---------------------------------------------------------------------------------------------

  /** The function a statement declares, exported or not. */
  function Declares(s: Stmt): Option<(string, Fn)> {
    match s
    case FunctionDecl(name, params, list) => if name.Some? then Some((name.value, Fn(params, BlockBody(list))))
        else None
    case Export(FunctionDecl(name, params, list)) =>
      if name.Some? then Some((name.value, Fn(params, BlockBody(list)))) else None
    case _ => None
  }

  /** The functions of a list; the last declaration of a name counts. */
  function Declared(list: seq<Stmt>): map<string, Fn> {
    if list == [] then map[]
    else
      var rest, d := Declared(list[..|list| - 1]), Declares(list[|list| - 1]);
      if d.Some? then rest[d.value.0 := d.value.1] else rest
  }

  /** The setting once the functions of a list are declared. */
  function Declaring(cfg: Script, list: seq<Stmt>): Script {
    cfg.(functions := cfg.functions + Declared(list))
  }

  /** The names of the functions of a list are bound before its first statement. */
  function Hoisted(vars: seq<Vars>, list: seq<Stmt>): (r: seq<Vars>)
    requires vars != []
    ensures |r| == |vars|
  {
    vars[0 := vars[0] + map n | n in Declared(list) :: []]
  }

  /** What is computed for a whole program. */
  function AbsProgram(cfg: Script, list: seq<Stmt>): Abs {
    AbsStmts(Declaring(Outset(cfg), list), list, Abs(Hoisted(EMPTY.vars, list), []))
  }

  /** The setting outside all functions. */
  function Outset(cfg: Script): Script {
    cfg.(functions := map[], around := 0, calls := MAX_CALLS)
  }

  /** Without functions a program is its statements. */
  lemma {:induction false} NothingDeclared(list: seq<Stmt>)
    requires forall i :: 0 <= i < |list| ==> Declares(list[i]).None?
    ensures Declared(list) == map[]
  {
    if list != [] {
      NothingDeclared(list[..|list| - 1]);
    }
  }

  // ---------------------------------------------------------------------------------------------
  // The programs on which these functions say everything
  // ---------------------------------------------------------------------------------------------

  /** The variable an access chain begins with. */
  function Root(e: Expr): string {
    match e
    case Identifier(_, name) => name
    case Dot(_, left, _) => Root(left)
    case Bracket(_, left, _) => Root(left)
    case _ => ""
  }

  /** Names and literal keys only, beginning with none of the functions `known`. */
  predicate Reference(known: set<string>, e: Expr) {
    PlainReference(e) && Root(e) !in known
  }

  /** An object made from the text of query parameters that a reference names. */
  predicate Parameters(known: set<string>, e: Expr) {
    e.New? && forall i :: 0 <= i < |e.args| ==> Reference(known, e.args[i])
  }

  /** What may be called: a function declared outermost, a reference, or a method of query parameters. */
  predicate Callable(known: set<string>, e: Expr) {
    (PlainReference(e) && (e.Identifier? || Root(e) !in known))
    || (Member(e).Some? && Parameters(known, Member(e).value.0))
  }

  /**
   * The functions `known` are called by their names and not used as values, other functions do not occur,
   * and objects are made only from query parameters, for one call. Operands that a literal keeps from
   * running are not restricted.
   */
  predicate Direct(known: set<string>, e: Expr)
    decreases e, 1
  {
    match e
    case Identifier(_, name) => name !in known
    case Assign(_, compound, left, right) =>
      && Direct(known, right) && (left.Identifier? ==> left.name !in known)
      && (compound ==> Direct(known, left))
    case Binary(_, _, left, right) => Direct(known, left) && (SkipsRight(e) || Direct(known, right))
    case Template(_, parts) => DirectList(known, parts)
    case Sequence(_, parts) => DirectList(known, parts)
    case Conditional(_, test, consequent, alternate) =>
      && Direct(known, test)
      && (if test.BooleanLiteral? then Direct(known, if test.truth then consequent else alternate)
          else Direct(known, consequent) && Direct(known, alternate))
    case Call(_, callee, args) => Callable(known, callee) && DirectList(known, args)
    case Await(_, operand) => Direct(known, operand)
    case Unary(_, _, operand) => Direct(known, operand)
    case New(_, _, _) => false
    case FunctionExpr(_, _, _) => false
    case _ => true
  }

  predicate DirectList(known: set<string>, es: seq<Expr>)
    decreases es, 0
  {
    forall i :: 0 <= i < |es| ==> Direct(known, es[i])
  }

  predicate DirectStmt(known: set<string>, s: Stmt)
    decreases s, 1
  {
    match s
    case ExprStmt(e) => Direct(known, e)
    case Return(e) => Direct(known, e)
    case Export(decl) =>
      (match decl
       case ExprStmt(e) => Direct(known, e)
       case VarDecl(bindings) => DirectBindings(known, bindings)
       case LexicalDecl(bindings) => DirectBindings(known, bindings)
       case _ => true)
    case VarDecl(bindings) => DirectBindings(known, bindings)
    case LexicalDecl(bindings) => DirectBindings(known, bindings)
    case Block(list) => DirectStmts(known, list)
    case If(test, consequent, alternate) =>
      && Direct(known, test)
      && (if test.BooleanLiteral? then DirectStmt(known, if test.truth then consequent else alternate)
          else DirectStmt(known, consequent) && DirectStmt(known, alternate))
    case While(test, body) => Direct(known, test) && (NeverRuns(s) || DirectStmt(known, body))
    case _ => true
  }

  predicate DirectBindings(known: set<string>, bs: seq<Binding>) {
    forall i :: 0 <= i < |bs| ==>
      bs[i].target.Pattern? || (bs[i].target.name !in known && Direct(known, bs[i].initializer))
  }

  /** A list that declares no functions of its own. */
  predicate DirectStmts(known: set<string>, list: seq<Stmt>)
    decreases list, 0
  {
    forall i :: 0 <= i < |list| ==> Declares(list[i]).None? && DirectStmt(known, list[i])
  }

  /** A function whose parameters and body leave the functions `known` alone. */
  predicate DirectFunction(known: set<string>, f: Fn) {
    && (forall i :: 0 <= i < |f.params| && f.params[i].Named? ==> f.params[i].name !in known)
    && DirectBody(known, f.body)
  }

  predicate DirectBody(known: set<string>, body: Body) {
    match body
    case BlockBody(list) => DirectStmts(known, list)
    case ExpressionBody(value) => Direct(known, value)
  }

  /** The programs specified: every function is declared outermost. */
  predicate DirectProgram(known: set<string>, list: seq<Stmt>) {
    forall i :: 0 <= i < |list| ==>
      && DirectStmt(known, list[i])
      && (Declares(list[i]).Some? ==> DirectFunction(known, Declares(list[i]).value.1))
  }

  /** Evaluating a reference changes nothing. */
  lemma ReferenceIsPure(cfg: Script, known: set<string>, e: Expr, a: Abs)
    requires Reference(known, e) && a.vars != []
    ensures AbsExpr(cfg, e, a).after == a && Direct(known, e) && AbsKind(cfg, e, a) == ""
  {
  }

  /** Neither does making an object from query parameters. */
  lemma ParametersArePure(cfg: Script, known: set<string>, e: Expr, a: Abs)
    requires Parameters(known, e) && a.vars != []
    ensures AbsNew(cfg, e, a).after == a && AbsExpr(cfg, e, a) == Outcome([], a)
  {
    if e.args != [] {
      ReferenceIsPure(cfg, known, e.args[0], a);
    }
    NoInput(e, Bound(a.vars));
  }

  /** Expressions that deliver nothing unless they read an input. */
  predicate Inert(e: Expr) {
    e.NoExpr? || e.StringLiteral? || e.BooleanLiteral? || e.Literal? || e.Dot? || e.Bracket? || e.FunctionExpr?
        || e.Opaque?
  }

  /** The cases of the two definitions, for use where their bodies are hidden. */
  lemma AbsExprCases(cfg: Script, e: Expr, a: Abs)
    requires a.vars != []
    ensures var kind := SourceKind(GlobalPath(e, Bound(a.vars)));
            kind.Some? ==> AbsExpr(cfg, e, a) == Outcome(SourceAt(cfg, Node(e), kind.value, ""), a)
    ensures SourceKind(GlobalPath(e, Bound(a.vars))).None? ==>
              && (e.Identifier? ==> AbsExpr(cfg, e, a) == Outcome(Lookup(a.vars, e.name), a))
              && (Inert(e) ==> AbsExpr(cfg, e, a) == Outcome([], a))
    ensures e.Assign? && !e.compound ==>
              var r := AbsExpr(cfg, e.right, a);
              AbsExpr(cfg, e, a) == Outcome(r.value, AbsStore(cfg, e.left, r.value, r.after))
    ensures e.Assign? && e.compound ==>
              var r := AbsExpr(cfg, e.right, a);
              var l := AbsExpr(cfg, e.left, r.after);
              var value := Join(l.value, r.value);
              AbsExpr(cfg, e, a) == Outcome(value, AbsStore(cfg, e.left, value, l.after))
    ensures e.Binary? ==> AbsExpr(cfg, e, a) == AbsBinary(cfg, e, a)
    ensures e.Template? ==>
            AbsExpr(cfg, e, a) == Outcome(JoinAll(AbsList(cfg, e.parts, a).values), AbsList(cfg, e.parts, a).after)
    ensures e.Sequence? ==>
              var r := AbsList(cfg, e.parts, a);
              AbsExpr(cfg, e, a) == Outcome(if r.values == [] then [] else r.values[|r.values| - 1], r.after)
    ensures e.Conditional? ==> AbsExpr(cfg, e, a) == AbsConditional(cfg, e, a)
    ensures e.Call? ==> AbsExpr(cfg, e, a) == AbsCall(cfg, e, a)
    ensures e.New? ==> AbsExpr(cfg, e, a) == Outcome([], AbsNew(cfg, e, a).after)
                       && AbsKind(cfg, e, a) == AbsNew(cfg, e, a).kind
    ensures !e.New? ==> AbsKind(cfg, e, a) == ""
    ensures e.Await? || e.Unary? ==> AbsExpr(cfg, e, a) == AbsExpr(cfg, e.operand, a)
  {
    hide GlobalPath; hide SourceKind; hide AbsBinary; hide AbsConditional; hide AbsCall; hide AbsStore; hide JoinAll;
    hide AbsNew; hide Join; hide Lookup;
    if !e.Identifier? && !e.Dot? && !e.Bracket? {
      NoInput(e, Bound(a.vars));
    }
  }

  /** Only names and access chains can read an input by themselves. */
  lemma NoInput(e: Expr, bound: set<string>)
    requires !e.Dot? && !e.Bracket? && (e.Identifier? ==> SourceKind(e.name).None?)
    ensures SourceKind(GlobalPath(e, bound)).None?
  {
  }

  lemma CallCase(cfg: Script, known: set<string>, e: Expr, a: Abs)
    requires a.vars != [] && e.Call? && Direct(known, e)
    ensures var args := AbsList(cfg, e.args, a);
            AbsExpr(cfg, e, a)
            == if CallsDeclared(cfg, e) then AbsInvoke(cfg, e, args) else AbsCallAfter(cfg, e, args)
    ensures Callable(known, e.callee) && DirectList(known, e.args)
  {
    hide AbsCallAfter; hide AbsInvoke; hide AbsList; hide GlobalPath; hide SourceKind; hide Callable;
    NoInput(e, Bound(a.vars));
  }

  lemma AssignCase(cfg: Script, known: set<string>, e: Expr, a: Abs)
    requires a.vars != [] && e.Assign? && Direct(known, e)
    ensures
      var r := AbsExpr(cfg, e.right, a);
      if e.compound then
        var l := AbsExpr(cfg, e.left, r.after);
        var value := Join(l.value, r.value);
        AbsExpr(cfg, e, a) == Outcome(value, AbsStore(cfg, e.left, value, l.after))
      else
        AbsExpr(cfg, e, a) == Outcome(r.value, AbsStore(cfg, e.left, r.value, r.after))
    ensures Direct(known, e.right) && (e.left.Identifier? ==> e.left.name !in known)
    ensures e.compound ==> Direct(known, e.left)
  {
    hide AbsStore; hide GlobalPath; hide SourceKind; hide Join;
    NoInput(e, Bound(a.vars));
  }

  lemma BinaryCase(cfg: Script, known: set<string>, e: Expr, a: Abs)
    requires a.vars != [] && e.Binary? && Direct(known, e)
    ensures AbsExpr(cfg, e, a) == AbsBinary(cfg, e, a)
    ensures Direct(known, e.left) && (SkipsRight(e) || Direct(known, e.right))
  {
    hide AbsBinary; hide GlobalPath; hide SourceKind;
    NoInput(e, Bound(a.vars));
  }

  lemma ConditionalCase(cfg: Script, known: set<string>, e: Expr, a: Abs)
    requires a.vars != [] && e.Conditional? && Direct(known, e)
    ensures AbsExpr(cfg, e, a) == AbsConditional(cfg, e, a) && Direct(known, e.test)
    ensures if e.test.BooleanLiteral? then Direct(known, if e.test.truth then e.consequent else e.alternate)
            else Direct(known, e.consequent) && Direct(known, e.alternate)
  {
    hide AbsConditional; hide GlobalPath; hide SourceKind;
    NoInput(e, Bound(a.vars));
  }

  lemma AbsCallCases(cfg: Script, e: Expr, a: Abs)
    requires a.vars != [] && e.Call?
    ensures var args := AbsList(cfg, e.args, a);
            AbsCall(cfg, e, a) == if CallsDeclared(cfg, e) then AbsInvoke(cfg, e, args) else AbsCallAfter(cfg, e, args)
  {
  }

  lemma DirectCases(known: set<string>, e: Expr)
    requires Direct(known, e)
    ensures e.Template? || e.Sequence? ==> DirectList(known, e.parts)
    ensures e.Await? || e.Unary? ==> Direct(known, e.operand)
  {
  }

  lemma AbsStmtCases(cfg: Script, s: Stmt, a: Abs)
    requires a.vars != []
    ensures s.NoStmt? || s.OtherStmt? ==> AbsStmt(cfg, s, a) == a
    ensures s.ExprStmt? || s.Return? ==> AbsStmt(cfg, s, a) == AbsExpr(cfg, s.value, a).after
    ensures s.Export? && s.decl.ExprStmt? ==> AbsStmt(cfg, s, a) == AbsExpr(cfg, s.decl.value, a).after
    ensures s.Export? && (s.decl.VarDecl? || s.decl.LexicalDecl?) ==> AbsStmt(cfg, s, a) == AbsStmt(cfg, s.decl, a)
    ensures s.Export? && !s.decl.ExprStmt? && !s.decl.VarDecl? && !s.decl.LexicalDecl? ==> AbsStmt(cfg, s, a) == a
    ensures s.VarDecl? ==> AbsStmt(cfg, s, a) == AbsBindings(cfg, s.bindings, FunctionLevel(cfg, a), a)
    ensures s.LexicalDecl? ==> AbsStmt(cfg, s, a) == AbsBindings(cfg, s.bindings, 0, a)
    ensures s.Block? ==>
              var r := AbsStmts(cfg, s.list, a.(vars := [map[]] + a.vars));
              AbsStmt(cfg, s, a) == r.(vars := r.vars[1..])
    ensures s.If? ==> AbsStmt(cfg, s, a) == AbsIf(cfg, s, a)
    ensures s.While? ==> AbsStmt(cfg, s, a) == AbsWhile(cfg, s, a)
    ensures s.FunctionDecl? ==> AbsStmt(cfg, s, a) == a
  {
  }

  lemma AbsGivenCases(cfg: Script, s: Stmt, a: Abs)
    requires a.vars != []
    ensures s.Return? ==> AbsGiven(cfg, s, a) == AbsExpr(cfg, s.value, a).value
    ensures s.Block? ==> AbsGiven(cfg, s, a) == AbsReturned(cfg, s.list, a.(vars := [map[]] + a.vars))
    ensures s.If? && s.test.BooleanLiteral? ==>
              AbsGiven(cfg, s, a)
              == AbsGiven(cfg, if s.test.truth then s.consequent else s.alternate, AbsExpr(cfg, s.test, a).after)
    ensures s.If? && !s.test.BooleanLiteral? ==>
              var t := AbsExpr(cfg, s.test, a).after;
              AbsGiven(cfg, s, a)
              == Join(AbsGiven(cfg, s.consequent, t),
                      AbsGiven(cfg, s.alternate, t.(flows := AbsStmt(cfg, s.consequent, t).flows)))
    ensures s.While? ==>
              AbsGiven(cfg, s, a)
              == if NeverRuns(s) then [] else AbsGiven(cfg, s.body, AbsExpr(cfg, s.test, a).after)
    ensures !s.Return? && !s.Block? && !s.If? && !s.While? ==> AbsGiven(cfg, s, a) == []
  {
  }

  lemma DirectStmtCases(known: set<string>, s: Stmt)
    requires DirectStmt(known, s)
    ensures s.ExprStmt? || s.Return? ==> Direct(known, s.value)
    ensures s.Export? && s.decl.ExprStmt? ==> Direct(known, s.decl.value)
    ensures s.Export? && (s.decl.VarDecl? || s.decl.LexicalDecl?) ==> DirectStmt(known, s.decl)
    ensures s.VarDecl? || s.LexicalDecl? ==> DirectBindings(known, s.bindings)
    ensures s.Block? ==> DirectStmts(known, s.list)
    ensures s.If? || s.While? ==> Direct(known, s.test)
    ensures s.If? && s.test.BooleanLiteral? ==> DirectStmt(known, if s.test.truth then s.consequent else s.alternate)
    ensures s.If? && !s.test.BooleanLiteral? ==> DirectStmt(known, s.consequent) && DirectStmt(known, s.alternate)
    ensures s.While? && !NeverRuns(s) ==> DirectStmt(known, s.body)
  {
  }

  lemma AbsListNext(cfg: Script, es: seq<Expr>, a: Abs, i: nat)
    requires a.vars != [] && i < |es|
    ensures var init := AbsList(cfg, es[..i], a);
            var last := AbsExpr(cfg, es[i], init.after);
            AbsList(cfg, es[..i + 1], a) == Outcomes(init.values + [last.value], last.after)
  {
    assert es[..i + 1][..i] == es[..i];
  }

  lemma JoinAllNext(values: seq<seq<Source>>, v: seq<Source>)
    ensures JoinAll(values + [v]) == Join(JoinAll(values), v)
  {
    assert (values + [v])[..|values|] == values;
  }

  lemma AbsBindingsNext(cfg: Script, bs: seq<Binding>, level: nat, a: Abs, i: nat)
    requires level < |a.vars| && i < |bs|
    ensures var init := AbsBindings(cfg, bs[..i], level, a);
            AbsBindings(cfg, bs[..i + 1], level, a)
            == if bs[i].target.Pattern? then init
               else var r := AbsExpr(cfg, bs[i].initializer, init);
                    r.after.(vars := r.after.vars[level := r.after.vars[level][bs[i].target.name := r.value]])
  {
    assert bs[..i + 1][..i] == bs[..i];
  }

  lemma AbsStmtsNext(cfg: Script, list: seq<Stmt>, a: Abs, i: nat)
    requires a.vars != [] && i < |list|
    ensures AbsStmts(cfg, list[..i + 1], a) == AbsStmt(cfg, list[i], AbsStmts(cfg, list[..i], a))
    ensures AbsReturned(cfg, list[..i + 1], a)
            == Join(AbsReturned(cfg, list[..i], a), AbsGiven(cfg, list[i], AbsStmts(cfg, list[..i], a)))
  {
    assert list[..i + 1][..i] == list[..i];
  }
}
