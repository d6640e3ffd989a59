/**
 * Concrete runs of the programs that pkg/jsanalysis/flow.go analyses, without functions and loops:
 * every value carries the set of inputs it was computed from, and the outside world does what it likes.
 *
 * Inputs are the reads the analyzer names by a path, and sinks are the calls and property assignments
 * it names. What a program puts into a property, or hands to a function that keeps it, may come back
 * wherever the program meets a value again; so may whatever has reached a sink.
 */
module FlowRuns {
  import opened Prelude
  import opened FlowSyntax
  import opened FlowSpec

  /** The data of a value; booleans are told apart because tests inspect them. */
  datatype Data = Truth(b: bool) | Datum(code: int)

  /** A value together with the inputs it was computed from. */
  datatype Val = Val(data: Data, taint: set<Source>)

  /**
   * One possible behaviour of everything the program cannot see: inputs, operators, properties, globals
   * and the functions they hold. Whatever may change during a run is told the moment at which it is
   * asked, so that the same question may get a new answer each time.
   */
  datatype World = World(
    undefined: int,
    literal: Pos -> int,
    text: string -> int,
    input: (nat, Source) -> Data,
    global: (nat, string) -> Data,             // globals and properties, by how they are written
    memory: (nat, Data) -> Data,               // what a variable holds by now; outside code may have changed it
    binary: (nat, BinaryOp, Data, Data) -> Data,
    unary: (nat, Data) -> Data,
    awaited: (nat, Data) -> Data,
    template: (nat, seq<Data>) -> Data,
    call: (nat, string, seq<Data>) -> Data,
    echoes: (nat, Source) -> bool,             // does an input that was put outside come back at this moment?
    keeps: string -> bool,                     // may this function keep what it is given, and look at global variables?
    truthy: int -> bool,
    nullish: int -> bool)
  {
    predicate Truthy(d: Data) {
      match d
      case Truth(b) => b
      case Datum(code) => truthy(code)
    }

    predicate Nullish(d: Data) {
      d.Datum? && nullish(d.code)
    }

    function Undefined(): Val {
      Val(Datum(undefined), {})
    }

    /** Does anything ever come back? */
    ghost predicate Echoing() {
      exists now, x :: echoes(now, x)
    }
  }

  /** The variables of one scope. */
  type Frame = map<string, Val>

  /**
   * A state of a run: the scope chain, the sinks reached so far, the inputs put outside the program's
   * variables, whether the program returned, and the moment.
   */
  datatype Con = Con(env: seq<Frame>, reached: set<Flow>, stored: set<Source>, returned: bool, clock: nat) {
    /** The state once a new evaluation has begun. */
    function Later(): Con {
      this.(clock := clock + 1)
    }
  }

  /** Programs start with one empty scope and nothing reached or stored. */
  const START: Con := Con([map[]], {}, {}, false, 0)

  datatype Delivery = Delivery(val: Val, after: Con)
  datatype Deliveries = Deliveries(vals: seq<Val>, after: Con)

  /** The inputs that have reached a sink. */
  function Sunk(reached: set<Flow>): set<Source> {
    set f | f in reached :: f.source
  }

  /** The inputs put outside before that come back now. */
  function Echo(w: World, c: Con): set<Source> {
    set x | x in c.stored + Sunk(c.reached) && w.echoes(c.clock, x)
  }

  /** A value as it is met now: if it is an object, it may hold what was put outside meanwhile. */
  function Meet(w: World, v: Val, c: Con): (r: Delivery)
    ensures r.after == c.Later()
  {
    Delivery(v.(taint := v.taint + Echo(w, c)), c.Later())
  }

  /** The same for a list of values, at one moment. */
  function MeetAll(w: World, vals: seq<Val>, c: Con): (r: seq<Val>)
    ensures |r| == |vals|
  {
    seq(|vals|, i requires 0 <= i < |vals| => Meet(w, vals[i], c).val)
  }

  // ---------------------------------------------------------------------------------------------
  // Variables and references
  // ---------------------------------------------------------------------------------------------

  function BoundNames(env: seq<Frame>): set<string> {
    set i, n | 0 <= i < |env| && n in env[i] :: n
  }

  function Read(w: World, now: nat, env: seq<Frame>, name: string): Val {
    if env == [] then Val(w.global(now, name), {})
    else if name in env[0] then env[0][name].(data := w.memory(now, env[0][name].data))
    else Read(w, now, env[1..], name)
  }

  /** The inputs a variable was computed from. */
  function TaintOf(env: seq<Frame>, name: string): set<Source> {
    if env == [] then {} else if name in env[0] then env[0][name].taint else TaintOf(env[1..], name)
  }

  /** Assigns to the innermost binding; an unbound name becomes a global. */
  function Write(env: seq<Frame>, name: string, v: Val): (r: seq<Frame>)
    requires env != []
    ensures |r| == |env|
  {
    if name in env[0] || |env| == 1 then [env[0][name := v]] + env[1..] else [env[0]] + Write(env[1..], name, v)
  }

  /** The variables of the outermost scope are properties of the global object as well. */
  function GlobalTaint(env: seq<Frame>, name: string): set<Source> {
    if env != [] && name in env[|env| - 1] then env[|env| - 1][name].taint else {}
  }

  function GlobalTaints(env: seq<Frame>): set<Source> {
    if env == [] then {} else set v, x | v in env[|env| - 1].Values && x in v.taint :: x
  }

  /** A reference as it is written. */
  function Spelling(e: Expr): string {
    match e
    case Identifier(_, name) => name
    case Dot(_, left, name) => Spelling(left) + "." + name
    case Bracket(_, left, StringLiteral(_, text)) => Spelling(left) + "." + text
    case _ => ""
  }

  /** The input of a kind that a node reads. */
  function InputAt(cfg: Script, at: Pos, kind: string): Source {
    Source(kind, "", at.start - cfg.shift, at.end - cfg.shift)
  }

  /**
   * The inputs in what a reference names: a path can itself be an input or lead through one, a variable
   * carries its own, and every property, `window.name` among them, may be a global variable.
   */
  function RefTaint(cfg: Script, e: Expr, env: seq<Frame>): set<Source> {
    var kind := SourceKind(GlobalPath(e, BoundNames(env)));
    if kind.Some?
    then {InputAt(cfg, Node(e), kind.value)} + (if kind.value == "window.name" then GlobalTaint(env, "name") else {})
    else match e
      case Identifier(_, name) => TaintOf(env, name)
      case Dot(_, left, name) => RefTaint(cfg, left, env) + GlobalTaint(env, name)
      case Bracket(_, left, StringLiteral(_, text)) => RefTaint(cfg, left, env) + GlobalTaint(env, text)
      case _ => {}
  }

  // ---------------------------------------------------------------------------------------------
  // Expressions
  // ---------------------------------------------------------------------------------------------

  /** Every input the value was computed from reaches the sink. */
  function Reach(cfg: Script, at: Pos, sink: string, taint: set<Source>): set<Flow> {
    set x | x in taint :: Flow(x, sink, at.start - cfg.shift, at.end - cfg.shift)
  }

  /** Reading a storage entry at a node. */
  function Input(w: World, now: nat, cfg: Script, at: Pos, kind: string, key: string): Val {
    var x := Source(kind, key, at.start - cfg.shift, at.end - cfg.shift);
    Val(w.input(now, x), {x})
  }

  function Taints(vals: seq<Val>): set<Source> {
    set v, x | v in vals && x in v.taint :: x
  }

  function Datas(vals: seq<Val>): seq<Data> {
    seq(|vals|, i requires 0 <= i < |vals| => vals[i].data)
  }

  function RunExpr(w: World, cfg: Script, e: Expr, c: Con): (r: Delivery)
    requires c.env != []
    ensures |r.after.env| == |c.env| && r.after.returned == c.returned && r.after.clock > c.clock
    decreases e, 1
  {
    var kind := SourceKind(GlobalPath(e, BoundNames(c.env)));
    if kind.Some?
    then Meet(w, Val(w.input(c.clock, InputAt(cfg, Node(e), kind.value)), RefTaint(cfg, e, c.env)), c)
    else match e
      case Identifier(_, name) => Meet(w, Read(w, c.clock, c.env, name), c)
      case Dot(_, _, _) => Meet(w, Val(w.global(c.clock, Spelling(e)), RefTaint(cfg, e, c.env)), c)
      case Bracket(_, _, _) => Meet(w, Val(w.global(c.clock, Spelling(e)), RefTaint(cfg, e, c.env)), c)
      case StringLiteral(_, text) => Delivery(Val(Datum(w.text(text)), {}), c.Later())
      case BooleanLiteral(_, truth) => Delivery(Val(Truth(truth), {}), c.Later())
      case Literal(at) => Delivery(Val(Datum(w.literal(at)), {}), c.Later())
      case Assign(_, _, left, right) =>
        var r := RunExpr(w, cfg, right, c.Later());
        Delivery(r.val, Store(w, cfg, left, r.val, r.after))
      case Binary(_, _, _, _) => RunBinary(w, cfg, e, c)
      case Template(_, parts) =>
        var r := RunList(w, cfg, parts, c.Later());
        Meet(w, Val(w.template(c.clock, Datas(r.vals)), Taints(r.vals)), r.after)
      case Sequence(_, parts) =>
        var r := RunList(w, cfg, parts, c.Later());
        Delivery(if r.vals == [] then w.Undefined() else r.vals[|r.vals| - 1], r.after)
      case Conditional(_, test, consequent, alternate) =>
        var t := RunExpr(w, cfg, test, c.Later());
        RunExpr(w, cfg, if w.Truthy(t.val.data) then consequent else alternate, t.after)
      case Call(_, _, _) => RunCall(w, cfg, e, c)
      case Await(_, operand) =>
        var r := RunExpr(w, cfg, operand, c.Later());
        Meet(w, r.val.(data := w.awaited(c.clock, r.val.data)), r.after)
      case Unary(_, _, operand) =>
        var r := RunExpr(w, cfg, operand, c.Later());
        Meet(w, r.val.(data := w.unary(c.clock, r.val.data)), r.after)
      case _ => Delivery(w.Undefined(), c.Later())
  }

  /** Stores a value in a variable, or puts it outside by way of a property, which may be a sink. */
  function Store(w: World, cfg: Script, left: Expr, v: Val, c: Con): (r: Con)
    requires c.env != []
    ensures |r.env| == |c.env| && r.returned == c.returned && r.clock >= c.clock
  {
    if left.Identifier? then c.(env := Write(c.env, left.name, v))
    else
      var m, taint := Member(left), v.taint + Echo(w, c);
      var sinks := if m.Some? && SinkProperty(m.value.1) then Reach(cfg, Node(left), m.value.1, taint) else {};
      c.(reached := c.reached + sinks, stored := c.stored + taint).Later()
  }

  function RunBinary(w: World, cfg: Script, e: Expr, c: Con): (r: Delivery)
    requires c.env != [] && e.Binary?
    ensures |r.after.env| == |c.env| && r.after.returned == c.returned && r.after.clock > c.clock
    decreases e, 0
  {
    var l := RunExpr(w, cfg, e.left, c.Later());
    var stops := match e.op
      case LogicalAnd => !w.Truthy(l.val.data)
      case LogicalOr => w.Truthy(l.val.data)
      case Coalesce => !w.Nullish(l.val.data)
      case OtherBinary(_) => false;
    if stops then l
    else
      var r := RunExpr(w, cfg, e.right, l.after);
      if e.op.OtherBinary?
      then Meet(w, Val(w.binary(c.clock, e.op, l.val.data, r.val.data), l.val.taint + r.val.taint), r.after)
      else r
  }

  function RunList(w: World, cfg: Script, es: seq<Expr>, c: Con): (r: Deliveries)
    requires c.env != []
    ensures |r.after.env| == |c.env| && r.after.returned == c.returned && r.after.clock >= c.clock && |r.vals| == |es|
    decreases es, 0
  {
    if es == [] then Deliveries([], c)
    else
      var init := RunList(w, cfg, es[..|es| - 1], c);
      var last := RunExpr(w, cfg, es[|es| - 1], init.after);
      Deliveries(init.vals + [last.val], last.after)
  }

  // ---------------------------------------------------------------------------------------------
  // Calls
  // ---------------------------------------------------------------------------------------------

  /** The input a storage object delivers for a literal key. */
  function StorageRead(e: Expr, bound: set<string>): Option<(string, string)>
    requires e.Call?
  {
    var m, key := Member(e.callee), LiteralKey(e.args);
    if m.Some? && key.Some? && m.value.1 == "getItem" && StorageObject(TrimWindow(GlobalPath(m.value.0, bound)))
    then Some((TrimWindow(GlobalPath(m.value.0, bound)), key.value)) else None
  }

  /** The sinks that a method's name decides. */
  function MethodSinks(cfg: Script, e: Expr, vals: seq<Val>): set<Flow>
    requires e.Call? && |vals| == |e.args|
  {
    var m, key := Member(e.callee), LiteralKey(e.args);
    (if m.Some? && |vals| > 1 && m.value.1 == "insertAdjacentHTML"
     then Reach(cfg, e.at, m.value.1, vals[1].taint) else {})
    + (if m.Some? && |vals| > 1 && m.value.1 == "setAttribute" && key.Some? && ScriptAttribute(cfg, key.value)
       then Reach(cfg, e.at, "setAttribute(" + cfg.lower(key.value) + ")", vals[1].taint) else {})
  }

  /** The sinks that the function's path decides. */
  function PathSinks(cfg: Script, at: Pos, path: string, vals: seq<Val>, taint: set<Source>): set<Flow> {
    (if SinkFunction(path) then Reach(cfg, at, path, taint) else {})
    + (if TimerFunction(path) && vals != [] then Reach(cfg, at, path, vals[0].taint) else {})
  }

  /** What a call sends to a sink. */
  function CallSinks(cfg: Script, e: Expr, path: string, vals: seq<Val>, receiver: set<Source>): set<Flow>
    requires e.Call? && |vals| == |e.args|
  {
    MethodSinks(cfg, e, vals) + PathSinks(cfg, e.at, path, vals, Taints(vals) + receiver)
  }

  /** The inputs in the object whose method is called, if there is one. */
  function ReceiverTaint(w: World, cfg: Script, e: Expr, c: Con): set<Source>
    requires e.Call?
  {
    if Member(e.callee).None? then {} else RefTaint(cfg, Member(e.callee).value.0, c.env) + Echo(w, c)
  }

  function RunCall(w: World, cfg: Script, e: Expr, c: Con): (r: Delivery)
    requires c.env != [] && e.Call?
    ensures |r.after.env| == |c.env| && r.after.returned == c.returned && r.after.clock > c.clock
    decreases e, 0
  {
    CallAfter(w, cfg, e, c.clock, RunList(w, cfg, e.args, c.Later()))
  }

  /** The call itself, once its arguments are evaluated; it began at moment `now`. */
  function CallAfter(w: World, cfg: Script, e: Expr, now: nat, args: Deliveries): (r: Delivery)
    requires args.after.env != [] && e.Call? && |args.vals| == |e.args|
    ensures |r.after.env| == |args.after.env| && r.after.returned == args.after.returned
    ensures r.after.clock > args.after.clock
  {
    var d, name := args.after, Spelling(e.callee);
    var bound := BoundNames(d.env);
    var read := StorageRead(e, bound);
    if read.Some? then Meet(w, Input(w, now, cfg, e.at, read.value.0, read.value.1), d)
    else
      var vals, receiver := MeetAll(w, args.vals, d), ReceiverTaint(w, cfg, e, d);
      var given := Taints(vals) + receiver;
      var sinks := CallSinks(cfg, e, GlobalPath(e.callee, bound), vals, receiver);
      var kept := if w.keeps(name) then given + GlobalTaints(d.env) else {};
      Meet(w, Val(w.call(now, name, Datas(vals)), given),
           d.(reached := d.reached + sinks, stored := d.stored + kept).Later())
  }

  // ---------------------------------------------------------------------------------------------
  // Statements
  // ---------------------------------------------------------------------------------------------

  function RunStmt(w: World, cfg: Script, s: Stmt, c: Con): (r: Con)
    requires c.env != []
    ensures |r.env| == |c.env| && r.clock >= c.clock
    decreases s, 1
  {
    if c.returned then c
    else match s
      case ExprStmt(e) => RunExpr(w, cfg, e, c).after
      case Return(e) => RunExpr(w, cfg, e, c).after.(returned := true)
      case Export(decl) =>
        (match decl
         case ExprStmt(e) => RunExpr(w, cfg, e, c).after
         case VarDecl(_) => RunStmt(w, cfg, decl, c)
         case LexicalDecl(_) => RunStmt(w, cfg, decl, c)
         case _ => c)
      case VarDecl(bindings) => RunBindings(w, cfg, bindings, |c.env| - 1, c)
      case LexicalDecl(bindings) => RunBindings(w, cfg, bindings, 0, c)
      case Block(list) =>
        var r := RunStmts(w, cfg, list, c.(env := [map[]] + c.env));
        r.(env := r.env[1..])
      case If(test, consequent, alternate) =>
        var t := RunExpr(w, cfg, test, c);
        RunStmt(w, cfg, if w.Truthy(t.val.data) then consequent else alternate, t.after)
      case _ => c
  }

  function RunBindings(w: World, cfg: Script, bs: seq<Binding>, level: nat, c: Con): (r: Con)
    requires level < |c.env|
    ensures |r.env| == |c.env| && r.returned == c.returned && r.clock >= c.clock
    decreases bs, 0
  {
    if bs == [] then c
    else
      var init := RunBindings(w, cfg, bs[..|bs| - 1], level, c);
      var b := bs[|bs| - 1];
      if b.target.Pattern? then init
      else
        var r := if b.initializer.NoExpr? then Delivery(w.Undefined(), init) else RunExpr(w, cfg, b.initializer, init);
        r.after.(env := r.after.env[level := r.after.env[level][b.target.name := r.val]])
  }

  function RunStmts(w: World, cfg: Script, list: seq<Stmt>, c: Con): (r: Con)
    requires c.env != []
    ensures |r.env| == |c.env| && r.clock >= c.clock
    decreases list, 0
  {
    if list == [] then c else RunStmt(w, cfg, list[|list| - 1], RunStmts(w, cfg, list[..|list| - 1], c))
  }
}
