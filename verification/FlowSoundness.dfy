/**
 * Why the static flow hypotheses can be trusted not to miss anything on the programs described here:
 * whatever input reaches a sink in any run (module FlowRuns) is among the reported flows.
 */
module FlowSoundness {
  import opened Prelude
  import opened FlowSyntax
  import opened FlowSpec
  import opened FlowRuns

  // ---------------------------------------------------------------------------------------------
  // The programs soundness is claimed for
  // ---------------------------------------------------------------------------------------------

  /** A node at which the analysis can report something. */
  predicate Reportable(cfg: Script, at: Pos) {
    0 <= at.start - cfg.shift && at.end - cfg.shift <= cfg.length
  }

  /** The inputs that some flow reports. */
  function SourcesOf(flows: seq<Flow>): set<Source> {
    set f | f in flows :: f.source
  }

  /** Every input the value may carry has been reported at some sink already. */
  predicate AllReported(value: seq<Source>, flows: seq<Flow>) {
    forall x :: x in value ==> x in SourcesOf(flows)
  }

  /** What the analysis keeps for a variable of the outermost scope. */
  function GlobalValue(vars: seq<Vars>, name: string): seq<Source> {
    if vars != [] && name in vars[|vars| - 1] then vars[|vars| - 1][name] else []
  }

  /** A reference the analysis rightly takes to carry no input. */
  predicate CleanRef(e: Expr, vars: seq<Vars>) {
    && SourceKind(GlobalPath(e, {})).None?
    && match e
       case Identifier(_, name) => Lookup(vars, name) == []
       case Dot(_, left, name) => CleanRef(left, vars) && GlobalValue(vars, name) == []
       case Bracket(_, left, StringLiteral(_, text)) => CleanRef(left, vars) && GlobalValue(vars, text) == []
       case _ => false
  }

  /** An input that lies in the script; `window.name` is the global variable of that name as well. */
  predicate SupportedInput(cfg: Script, e: Expr, vars: seq<Vars>)
    requires SourceKind(GlobalPath(e, Bound(vars))).Some?
  {
    && cfg.Inside(Node(e))
    && (SourceKind(GlobalPath(e, Bound(vars))).value == "window.name" ==> GlobalValue(vars, "name") == [])
  }

  /** A reference whose inputs the analysis sees: an input, a variable, or a clean property. */
  predicate SupportedRef(cfg: Script, e: Expr, vars: seq<Vars>) {
    if SourceKind(GlobalPath(e, Bound(vars))).Some? then SupportedInput(cfg, e, vars)
    else if e.Identifier? then SourceKind(e.name).None?
    else CleanRef(e, vars)
  }

  /**
   * Expressions without functions, object creation, compound assignments and updates; an assigned name
   * must be bound unless the innermost scope is the outermost. An input may be put into a property only
   * if it is reported at some sink by then, which an assignment to a sink property does itself. `keeps`
   * tells which functions may keep what they are given. The check follows the order of evaluation.
   */
  predicate Supported(keeps: string -> bool, cfg: Script, e: Expr, a: Abs)
    requires a.vars != []
    decreases e, 1
  {
    if SourceKind(GlobalPath(e, Bound(a.vars))).Some? then SupportedInput(cfg, e, a.vars)
    else match e
      case Identifier(_, _) => SupportedRef(cfg, e, a.vars)
      case Dot(_, _, _) => SupportedRef(cfg, e, a.vars)
      case Bracket(_, _, _) => SupportedRef(cfg, e, a.vars)
      case StringLiteral(_, _) => true
      case BooleanLiteral(_, _) => true
      case Literal(_) => true
      case Assign(_, compound, left, right) =>
        && !compound && Supported(keeps, cfg, right, a)
        && SupportedTarget(cfg, left, AbsExpr(cfg, right, a))
      case Binary(_, _, left, right) =>
        && Supported(keeps, cfg, left, a)
        && (SkipsRight(e) || Supported(keeps, cfg, right, AbsExpr(cfg, left, a).after))
      case Template(_, parts) => SupportedList(keeps, cfg, parts, a)
      case Sequence(_, parts) => SupportedList(keeps, cfg, parts, a)
      case Conditional(_, test, consequent, alternate) =>
        && Supported(keeps, cfg, test, a)
        && var t := AbsExpr(cfg, test, a).after;
        if test.BooleanLiteral? then Supported(keeps, cfg, if test.truth then consequent else alternate, t)
        else Supported(keeps, cfg, consequent, t)
             && Supported(keeps, cfg, alternate, t.(flows := AbsExpr(cfg, consequent, t).after.flows))
      case Call(_, _, args) =>
        && SupportedList(keeps, cfg, args, a)
        && SupportedCall(keeps, cfg, e, AbsList(cfg, args, a))
      case Await(_, operand) => Supported(keeps, cfg, operand, a)
      case Unary(_, update, operand) => !update && Supported(keeps, cfg, operand, a)
      case _ => false
  }

  /** Where a value may be assigned. */
  predicate SupportedTarget(cfg: Script, left: Expr, x: Outcome)
    requires x.after.vars != []
  {
    if left.Identifier? then left.name in Bound(x.after.vars) || |x.after.vars| == 1
    else PlainReference(left) && Reportable(cfg, Node(left))
         && AllReported(x.value, AbsStore(cfg, left, x.value, x.after).flows)
  }

  /** A callee whose path names nothing special, whether or not its root is a variable of the program. */
  predicate OrdinaryCallee(e: Expr)
    requires e.Call?
  {
    var path := GlobalPath(e.callee, {});
    Member(e.callee).Some? && !SinkFunction(path) && !TimerFunction(path) && StorageRead(e, {}).None?
  }

  /**
   * A call of a function that a global path names, or of an ordinary method. A storage key fits the
   * report. A function that may keep what it is given gets only inputs reported by then, and finds no
   * others in global variables.
   */
  predicate SupportedCall(keeps: string -> bool, cfg: Script, e: Expr, args: Outcomes)
    requires e.Call? && args.after.vars != []
  {
    var vars := args.after.vars;
    var y := AbsCallAfter(cfg, e, args);
    && cfg.Inside(e.at) && PlainReference(e.callee) && !CallsDeclared(cfg, e)
    && (GlobalPath(e.callee, Bound(vars)) != "" || OrdinaryCallee(e))
    && (Member(e.callee).Some? ==> SupportedRef(cfg, Member(e.callee).value.0, vars))
    && if StorageRead(e, Bound(vars)).Some? then |LiteralKey(e.args).value| <= 128
       else keeps(Spelling(e.callee)) ==>
              && AllReported(y.value, y.after.flows)
              && forall v :: v in vars[|vars| - 1].Values ==> AllReported(v, y.after.flows)
  }

  predicate SupportedList(keeps: string -> bool, cfg: Script, es: seq<Expr>, a: Abs)
    requires a.vars != []
    decreases es, 0
  {
    es == [] ||
    (SupportedList(keeps, cfg, es[..|es| - 1], a)
     && Supported(keeps, cfg, es[|es| - 1], AbsList(cfg, es[..|es| - 1], a).after))
  }

  /** Statements that may stand alone as a branch: a lexical declaration or an export may not. */
  predicate BranchStatement(s: Stmt) {
    !s.LexicalDecl? && !s.Export?
  }

  /**
   * Statements without loops and functions. A `var` without an initializer must not follow another
   * binding of its name, which the analysis would forget.
   */
  predicate SupportedStmt(keeps: string -> bool, cfg: Script, s: Stmt, a: Abs)
    requires a.vars != []
    decreases s, 1
  {
    match s
    case NoStmt => true
    case ExprStmt(e) => Supported(keeps, cfg, e, a)
    case Return(e) => e.NoExpr? || Supported(keeps, cfg, e, a)
    case Export(decl) =>
      (match decl
       case ExprStmt(e) => Supported(keeps, cfg, e, a)
       case VarDecl(_) => SupportedStmt(keeps, cfg, decl, a)
       case LexicalDecl(_) => SupportedStmt(keeps, cfg, decl, a)
       case _ => false)
    case VarDecl(bindings) => cfg.around == 0 && SupportedBindings(keeps, cfg, bindings, |a.vars| - 1, a, true)
    case LexicalDecl(bindings) => SupportedBindings(keeps, cfg, bindings, 0, a, false)
    case Block(list) => SupportedStmts(keeps, cfg, list, a.(vars := [map[]] + a.vars))
    case If(test, consequent, alternate) =>
      && Supported(keeps, cfg, test, a)
      && BranchStatement(consequent) && BranchStatement(alternate)
      && var t := AbsExpr(cfg, test, a).after;
      if test.BooleanLiteral? then SupportedStmt(keeps, cfg, if test.truth then consequent else alternate, t)
      else SupportedStmt(keeps, cfg, consequent, t)
           && SupportedStmt(keeps, cfg, alternate, t.(flows := AbsStmt(cfg, consequent, t).flows))
    case _ => false
  }

  predicate SupportedBindings(keeps: string -> bool, cfg: Script, bs: seq<Binding>, level: nat, a: Abs,
                              hoisted: bool)
    requires level < |a.vars|
    decreases bs, 0
  {
    bs == [] ||
    (var init, b := bs[..|bs| - 1], bs[|bs| - 1];
     && SupportedBindings(keeps, cfg, init, level, a, hoisted)
     && b.target.Named?
     && var after := AbsBindings(cfg, init, level, a);
     if b.initializer.NoExpr? then !hoisted || b.target.name !in after.vars[level]
     else Supported(keeps, cfg, b.initializer, after))
  }

  predicate SupportedStmts(keeps: string -> bool, cfg: Script, list: seq<Stmt>, a: Abs)
    requires a.vars != []
    decreases list, 0
  {
    list == [] ||
    (SupportedStmts(keeps, cfg, list[..|list| - 1], a)
     && SupportedStmt(keeps, cfg, list[|list| - 1], AbsStmts(cfg, list[..|list| - 1], a)))
  }

  // ---------------------------------------------------------------------------------------------
  // What covers what
  // ---------------------------------------------------------------------------------------------

  /** The inputs that may turn up where the analysis does not see them: reported ones, if anything comes back. */
  ghost function Known(w: World, flows: seq<Flow>): set<Source> {
    if w.Echoing() then SourcesOf(flows) else {}
  }

  /** Every input in `taint` is among `value` or may turn up anywhere. */
  ghost predicate Tainted(known: set<Source>, taint: set<Source>, value: seq<Source>) {
    forall x :: x in taint ==> x in value || x in known
  }

  /** Everything a variable was computed from is among the sources the analysis keeps for it. */
  ghost predicate FrameCovered(known: set<Source>, vars: Vars, frame: Frame) {
    forall n :: n in frame ==> n in vars && Tainted(known, frame[n].taint, vars[n])
  }

  /** The chains agree scope by scope; only the outermost scope may have fewer names in a run. */
  ghost predicate Covered(known: set<Source>, vars: seq<Vars>, env: seq<Frame>) {
    && |vars| == |env| && env != []
    && (forall i :: 0 <= i < |env| ==> FrameCovered(known, vars[i], env[i]))
    && (forall i :: 0 <= i < |env| - 1 ==> env[i].Keys == vars[i].Keys)
  }

  ghost predicate ReachedIn(known: set<Source>, reached: set<Flow>, flows: seq<Flow>) {
    forall f :: f in reached ==> f in flows || f.source in known
  }

  /** The analysis state `a` covers the run state `c`. */
  ghost predicate Covers(w: World, a: Abs, c: Con) {
    var known := Known(w, a.flows);
    Covered(known, a.vars, c.env) && ReachedIn(known, c.reached, a.flows) && c.stored <= SourcesOf(a.flows)
  }

  ghost predicate ResultCovered(w: World, x: Outcome, r: Delivery) {
    Covers(w, x.after, r.after) && Tainted(Known(w, x.after.flows), r.val.taint, x.value)
  }

  lemma KnownGrows(w: World, flows: seq<Flow>, more: seq<Flow>)
    requires flows <= more
    ensures SourcesOf(flows) <= SourcesOf(more) && Known(w, flows) <= Known(w, more)
  {
    assert forall f :: f in flows ==> f in more;
  }

  lemma CoveredMore(known: set<Source>, more: set<Source>, vars: seq<Vars>, env: seq<Frame>)
    requires Covered(known, vars, env) && known <= more
    ensures Covered(more, vars, env)
  {
    forall i | 0 <= i < |env| ensures FrameCovered(more, vars[i], env[i]) {
      assert FrameCovered(known, vars[i], env[i]);
    }
  }

  /** Later flows do not hurt. */
  lemma CoversMore(w: World, a: Abs, c: Con, flows: seq<Flow>)
    requires Covers(w, a, c) && a.flows <= flows
    ensures Covers(w, a.(flows := flows), c)
  {
    KnownGrows(w, a.flows, flows);
    CoveredMore(Known(w, a.flows), Known(w, flows), a.vars, c.env);
    assert forall f :: f in a.flows ==> f in flows;
  }

  /** What comes back is known. */
  lemma EchoKnown(w: World, a: Abs, c: Con)
    requires Covers(w, a, c)
    ensures Echo(w, c) <= Known(w, a.flows)
  {
    forall x | x in Echo(w, c) ensures x in Known(w, a.flows) {
      assert w.Echoing();
      if x !in c.stored {
        var f :| f in c.reached && f.source == x;
        assert f in a.flows ==> f.source in SourcesOf(a.flows);
      }
    }
  }

  /** A covered value stays covered when it is met. */
  lemma MeetCovers(w: World, a: Abs, c: Con, v: Val, value: seq<Source>)
    requires Covers(w, a, c) && Tainted(Known(w, a.flows), v.taint, value)
    ensures ResultCovered(w, Outcome(value, a), Meet(w, v, c))
  {
    EchoKnown(w, a, c);
  }

  lemma {:induction false} LookupCovers(known: set<Source>, vars: seq<Vars>, env: seq<Frame>, name: string)
    requires Covered(known, vars, env)
    ensures Tainted(known, TaintOf(env, name), Lookup(vars, name))
  {
    if |env| > 1 {
      assert Covered(known, vars[1..], env[1..]);
      LookupCovers(known, vars[1..], env[1..], name);
    } else {
      assert TaintOf(env[1..], name) == {};
    }
    assert FrameCovered(known, vars[0], env[0]);
  }

  lemma {:induction false} ReadTaint(w: World, now: nat, env: seq<Frame>, name: string)
    ensures Read(w, now, env, name).taint == TaintOf(env, name)
  {
    if env != [] && name !in env[0] {
      ReadTaint(w, now, env[1..], name);
    }
  }

  /** A name the analysis finds unbound is unbound in the run. */
  lemma BoundCovers(known: set<Source>, vars: seq<Vars>, env: seq<Frame>)
    requires Covered(known, vars, env)
    ensures BoundNames(env) <= Bound(vars)
  {
    forall n | n in BoundNames(env) ensures n in Bound(vars) {
      var i :| 0 <= i < |env| && n in env[i];
      assert FrameCovered(known, vars[i], env[i]);
    }
  }

  /** A path that starts at an unbound name is the same in the run. */
  lemma {:induction false} PathCovers(e: Expr, small: set<string>, large: set<string>, depth: nat)
    requires small <= large && GlobalPath(e, large, depth) != ""
    ensures GlobalPath(e, small, depth) == GlobalPath(e, large, depth)
  {
    match e
    case Dot(_, left, _) => PathCovers(left, small, large, depth + 1);
    case Bracket(_, left, StringLiteral(_, _)) => PathCovers(left, small, large, depth + 1);
    case _ =>
  }

  lemma {:induction false} PathAtLessDepth(e: Expr, bound: set<string>, depth: nat)
    requires GlobalPath(e, bound, depth + 1) != ""
    ensures GlobalPath(e, bound, depth) == GlobalPath(e, bound, depth + 1)
  {
    match e
    case Dot(_, left, _) => PathAtLessDepth(left, bound, depth + 1);
    case Bracket(_, left, StringLiteral(_, _)) => PathAtLessDepth(left, bound, depth + 1);
    case _ =>
  }

  /** The object of a property that a global path names is itself named by one. */
  lemma ObjectPath(e: Expr, bound: set<string>)
    requires GlobalPath(e, bound) != "" && Member(e).Some?
    ensures GlobalPath(Member(e).value.0, bound) != ""
  {
    PathAtLessDepth(Member(e).value.0, bound, 0);
  }

  /** A path is the one its spelling gives, or none. */
  lemma {:induction false} PathOrNone(e: Expr, bound: set<string>, depth: nat)
    ensures GlobalPath(e, bound, depth) == "" || GlobalPath(e, bound, depth) == GlobalPath(e, {}, depth)
  {
    match e
    case Dot(_, left, _) => PathOrNone(left, bound, depth + 1);
    case Bracket(_, left, StringLiteral(_, _)) => PathOrNone(left, bound, depth + 1);
    case _ =>
  }

  /** Writing to a covered chain and assigning in its cover match. */
  lemma {:induction false} WriteCovers(known: set<Source>, vars: seq<Vars>, env: seq<Frame>, name: string,
                                           value: seq<Source>, v: Val)
    requires Covered(known, vars, env) && Tainted(known, v.taint, value)
    requires name in Bound(vars) || |vars| == 1
    ensures Covered(known, AssignTo(vars, name, value), Write(env, name, v))
  {
    if |vars| > 1 && name !in vars[0] {
      assert name in Bound(vars[1..]) by {
        var i :| 0 <= i < |vars| && name in vars[i];
        assert name in vars[1..][i - 1];
      }
      assert Covered(known, vars[1..], env[1..]);
      WriteCovers(known, vars[1..], env[1..], name, value, v);
      assert name !in env[0];
      CoveredCons(known, vars[0], env[0], AssignTo(vars[1..], name, value), Write(env[1..], name, v));
    } else {
      assert name in vars[0] ==> name in Bound(vars);
      FrameUpdate(known, vars[0], env[0], name, value, v);
      if |vars| == 1 {
        assert name !in vars[0] ==> name !in Bound(vars);
      }
    }
  }

  lemma FrameUpdate(known: set<Source>, vars: Vars, frame: Frame, name: string, value: seq<Source>, v: Val)
    requires FrameCovered(known, vars, frame) && Tainted(known, v.taint, value)
    ensures FrameCovered(known, vars[name := value], frame[name := v])
  {
  }

  lemma CoveredCons(known: set<Source>, v: Vars, f: Frame, vars: seq<Vars>, env: seq<Frame>)
    requires FrameCovered(known, v, f) && f.Keys == v.Keys && Covered(known, vars, env)
    ensures Covered(known, [v] + vars, [f] + env)
  {
  }

  /** The same names are bound, scope by scope, except perhaps in the outermost one. */
  ghost predicate SameNames(a: seq<Vars>, b: seq<Vars>) {
    |a| == |b| && forall i :: 0 <= i < |a| - 1 ==> a[i].Keys == b[i].Keys
  }

  /** A merge covers whatever either branch covers. */
  lemma MergeCovers(known: set<Source>, out: seq<Vars>, left: seq<Vars>, right: seq<Vars>, env: seq<Frame>)
    requires |out| == |left| == |right| && SameNames(out, left) && SameNames(out, right)
    requires Covered(known, left, env) || Covered(known, right, env)
    ensures Covered(known, MergeChain(out, left, right), env)
  {
    var m := MergeChain(out, left, right);
    forall i | 0 <= i < |env| ensures FrameCovered(known, m[i], env[i]) {
      assert FrameCovered(known, left[i], env[i]) || FrameCovered(known, right[i], env[i]);
    }
  }

  lemma AssignKeepsNames(vars: seq<Vars>, name: string, value: seq<Source>)
    requires vars != [] && (name in Bound(vars) || |vars| == 1)
    ensures SameNames(vars, AssignTo(vars, name, value))
  {
    if name in Bound(vars) {
      UpdateKeepsNames(vars, name, value);
    }
  }

  lemma {:induction false} UpdateKeepsNames(vars: seq<Vars>, name: string, value: seq<Source>)
    ensures |Update(vars, name, value)| == |vars|
    ensures forall i :: 0 <= i < |vars| ==> Update(vars, name, value)[i].Keys == vars[i].Keys
  {
    if vars != [] && name !in vars[0] {
      UpdateKeepsNames(vars[1..], name, value);
    }
  }

  // Supported expressions bind no name except in the outermost scope.

  lemma {:induction false} ExprKeepsNames(keeps: string -> bool, cfg: Script, e: Expr, a: Abs)
    requires a.vars != [] && Supported(keeps, cfg, e, a)
    ensures SameNames(a.vars, AbsExpr(cfg, e, a).after.vars)
    decreases e, 1
  {
    hide GlobalPath; hide SourceKind;
    if SourceKind(GlobalPath(e, Bound(a.vars))).None? {
      match e
      case Assign(_, _, left, right) =>
        ExprKeepsNames(keeps, cfg, right, a);
        var r := AbsExpr(cfg, right, a);
        if left.Identifier? {
          AssignKeepsNames(r.after.vars, left.name, r.value);
        }
      case Binary(_, _, left, right) =>
        ExprKeepsNames(keeps, cfg, left, a);
        if !SkipsRight(e) {
          ExprKeepsNames(keeps, cfg, right, AbsExpr(cfg, left, a).after);
        }
      case Template(_, parts) => ListKeepsNames(keeps, cfg, parts, a);
      case Sequence(_, parts) => ListKeepsNames(keeps, cfg, parts, a);
      case Conditional(_, test, consequent, alternate) =>
        ExprKeepsNames(keeps, cfg, test, a);
        ConditionalKeepsNames(keeps, cfg, e, a);
      case Call(_, callee, args) => ListKeepsNames(keeps, cfg, args, a);
      case Await(_, operand) => ExprKeepsNames(keeps, cfg, operand, a);
      case Unary(_, _, operand) => ExprKeepsNames(keeps, cfg, operand, a);
      case _ =>
    }
  }

  lemma {:induction false} ConditionalKeepsNames(keeps: string -> bool, cfg: Script, e: Expr, a: Abs)
    requires a.vars != [] && e.Conditional? && Supported(keeps, cfg, e, a)
    requires SourceKind(GlobalPath(e, Bound(a.vars))).None?
    requires SameNames(a.vars, AbsExpr(cfg, e.test, a).after.vars)
    ensures SameNames(a.vars, AbsConditional(cfg, e, a).after.vars)
    decreases e, 0
  {
    var t := AbsExpr(cfg, e.test, a).after;
    if e.test.BooleanLiteral? {
      ExprKeepsNames(keeps, cfg, if e.test.truth then e.consequent else e.alternate, t);
    } else {
      ExprKeepsNames(keeps, cfg, e.consequent, t);
      ExprKeepsNames(keeps, cfg, e.alternate, t.(flows := AbsExpr(cfg, e.consequent, t).after.flows));
    }
  }

  lemma {:induction false} ListKeepsNames(keeps: string -> bool, cfg: Script, es: seq<Expr>, a: Abs)
    requires a.vars != [] && SupportedList(keeps, cfg, es, a)
    ensures SameNames(a.vars, AbsList(cfg, es, a).after.vars)
    decreases es, 0
  {
    if es != [] {
      ListKeepsNames(keeps, cfg, es[..|es| - 1], a);
      ExprKeepsNames(keeps, cfg, es[|es| - 1], AbsList(cfg, es[..|es| - 1], a).after);
    }
  }

  // ---------------------------------------------------------------------------------------------
  // The simulation: a covered state stays covered
  // ---------------------------------------------------------------------------------------------

  /** Recording a covered value reports all its inputs at the sink. */
  lemma RecordCovers(known: set<Source>, cfg: Script, flows: seq<Flow>, at: Pos, sink: string, value: seq<Source>,
                     taint: set<Source>)
    requires Reportable(cfg, at) && Tainted(known, taint, value)
    ensures ReachedIn(known, Reach(cfg, at, sink, taint), Record(cfg, flows, at, sink, value))
  {
  }

  lemma {:induction false} SoundExpr(w: World, cfg: Script, e: Expr, a: Abs, c: Con)
    requires Covers(w, a, c) && a.vars != [] && Supported(w.keeps, cfg, e, a)
    ensures ResultCovered(w, AbsExpr(cfg, e, a), RunExpr(w, cfg, e, c))
    decreases e, 1
  {
    hide GlobalPath; hide SourceKind; hide ResultCovered; hide Covers;
    hide AbsBinary; hide AbsConditional; hide RunBinary; hide AbsCall; hide RunCall; hide AbsStore;
    if SourceKind(GlobalPath(e, Bound(a.vars))).Some? {
      SoundInput(w, cfg, e, a, c);
    } else {
      match e
      case Assign(_, _, left, right) => SoundAssign(w, cfg, e, a, c);
      case Binary(_, _, left, right) =>
        NoInput(e, BoundNames(c.env));
        SoundBinary(w, cfg, e, a, c);
      case Template(_, parts) => SoundParts(w, cfg, e, a, c);
      case Sequence(_, parts) => SoundParts(w, cfg, e, a, c);
      case Conditional(_, _, _, _) =>
        NoInput(e, BoundNames(c.env));
        SoundConditional(w, cfg, e, a, c);
      case Call(_, callee, args) =>
        NoInput(e, BoundNames(c.env));
        SoundCall(w, cfg, e, a, c);
      case Await(_, operand) => SoundOperand(w, cfg, e, a, c);
      case Unary(_, _, operand) => SoundOperand(w, cfg, e, a, c);
      case StringLiteral(_, _) => SoundLiteral(w, cfg, e, a, c);
      case BooleanLiteral(_, _) => SoundLiteral(w, cfg, e, a, c);
      case Literal(_) => SoundLiteral(w, cfg, e, a, c);
      case _ => SoundReference(w, cfg, e, a, c);
    }
  }

  /** An expression that reads an input. */
  lemma SoundInput(w: World, cfg: Script, e: Expr, a: Abs, c: Con)
    requires Covers(w, a, c) && a.vars != [] && Supported(w.keeps, cfg, e, a)
    requires SourceKind(GlobalPath(e, Bound(a.vars))).Some?
    ensures ResultCovered(w, AbsExpr(cfg, e, a), RunExpr(w, cfg, e, c))
  {
    hide GlobalPath; hide Covers; hide Meet; hide RefTaint; hide Covered; hide ResultCovered; hide Tainted;
    hide SourceAt;
    CoversParts(w, a, c);
    PathCovers(e, BoundNames(c.env), Bound(a.vars), 0);
    var kind := SourceKind(GlobalPath(e, Bound(a.vars))).value;
    assert SupportedRef(cfg, e, a.vars);
    RefCovers(Known(w, a.flows), cfg, e, a, c.env);
    var v := Val(w.input(c.clock, InputAt(cfg, Node(e), kind)), RefTaint(cfg, e, c.env));
    MeetCovers(w, a, c, v, SourceAt(cfg, Node(e), kind, ""));
  }

  lemma SoundLiteral(w: World, cfg: Script, e: Expr, a: Abs, c: Con)
    requires Covers(w, a, c) && a.vars != [] && (e.StringLiteral? || e.BooleanLiteral? || e.Literal?)
    requires SourceKind(GlobalPath(e, Bound(a.vars))).None?
    ensures ResultCovered(w, AbsExpr(cfg, e, a), RunExpr(w, cfg, e, c))
  {
    hide GlobalPath; hide SourceKind;
    NoInput(e, BoundNames(c.env));
  }

  /** A variable of the outermost scope under the name of a property. */
  lemma GlobalCovers(known: set<Source>, vars: seq<Vars>, env: seq<Frame>, name: string)
    requires Covered(known, vars, env)
    ensures Tainted(known, GlobalTaint(env, name), GlobalValue(vars, name))
  {
    assert FrameCovered(known, vars[|env| - 1], env[|env| - 1]);
  }

  /** A clean reference carries in a run only what may turn up anywhere. */
  lemma {:induction false} CleanRefCovers(known: set<Source>, cfg: Script, e: Expr, vars: seq<Vars>, env: seq<Frame>)
    requires Covered(known, vars, env) && CleanRef(e, vars)
    ensures Tainted(known, RefTaint(cfg, e, env), [])
  {
    hide GlobalPath; hide Covered;
    PathOrNone(e, BoundNames(env), 0);
    assert SourceKind("").None?;
    match e
    case Identifier(_, name) => LookupCovers(known, vars, env, name);
    case Dot(_, left, name) =>
      CleanRefCovers(known, cfg, left, vars, env);
      GlobalCovers(known, vars, env, name);
    case Bracket(_, left, StringLiteral(_, text)) =>
      CleanRefCovers(known, cfg, left, vars, env);
      GlobalCovers(known, vars, env, text);
  }

  /** Whatever a supported reference carries in a run, the analysis knows. */
  lemma RefCovers(known: set<Source>, cfg: Script, e: Expr, a: Abs, env: seq<Frame>)
    requires Covered(known, a.vars, env) && a.vars != [] && SupportedRef(cfg, e, a.vars)
    ensures Tainted(known, RefTaint(cfg, e, env), AbsExpr(cfg, e, a).value)
  {
    hide Covered;
    BoundCovers(known, a.vars, env);
    if SourceKind(GlobalPath(e, Bound(a.vars))).Some? {
      PathCovers(e, BoundNames(env), Bound(a.vars), 0);
      GlobalCovers(known, a.vars, env, "name");
    } else if e.Identifier? {
      NoInput(e, BoundNames(env));
      LookupCovers(known, a.vars, env, e.name);
    } else {
      CleanRefCovers(known, cfg, e, a.vars, env);
    }
  }

  /** Names and properties. */
  lemma SoundReference(w: World, cfg: Script, e: Expr, a: Abs, c: Con)
    requires Covers(w, a, c) && a.vars != [] && Supported(w.keeps, cfg, e, a)
    requires SourceKind(GlobalPath(e, Bound(a.vars))).None? && (e.Identifier? || e.Dot? || e.Bracket?)
    ensures ResultCovered(w, AbsExpr(cfg, e, a), RunExpr(w, cfg, e, c))
  {
    hide Covers; hide SupportedRef; hide Meet; hide Read; hide RefTaint; hide Covered; hide ResultCovered; hide Tainted;
    assert SupportedRef(cfg, e, a.vars);
    CoversParts(w, a, c);
    RefCovers(Known(w, a.flows), cfg, e, a, c.env);
    ReferenceInRun(w, cfg, e, a, c);
    MeetCovers(w, a, c, RefVal(w, cfg, e, c), AbsExpr(cfg, e, a).value);
  }

  lemma LaterCovers(w: World, a: Abs, c: Con)
    requires Covers(w, a, c)
    ensures c.env != [] && Covers(w, a, c.Later())
  {
  }

  lemma CoversParts(w: World, a: Abs, c: Con)
    requires Covers(w, a, c)
    ensures Covered(Known(w, a.flows), a.vars, c.env) && c.env != []
    ensures BoundNames(c.env) <= Bound(a.vars)
  {
    BoundCovers(Known(w, a.flows), a.vars, c.env);
  }

  /** The value a reference has before it is met. */
  function RefVal(w: World, cfg: Script, e: Expr, c: Con): (v: Val)
  {
    Val(if e.Identifier? then Read(w, c.clock, c.env, e.name).data else w.global(c.clock, Spelling(e)),
        RefTaint(cfg, e, c.env))
  }

  /** A reference that is no input is met with what it names. */
  lemma ReferenceInRun(w: World, cfg: Script, e: Expr, a: Abs, c: Con)
    requires a.vars != [] && c.env != [] && SupportedRef(cfg, e, a.vars) && BoundNames(c.env) <= Bound(a.vars)
    requires SourceKind(GlobalPath(e, Bound(a.vars))).None? && (e.Identifier? || e.Dot? || e.Bracket?)
    ensures RunExpr(w, cfg, e, c) == Meet(w, RefVal(w, cfg, e, c), c)
    ensures AbsExpr(cfg, e, a).after == a
  {
    hide GlobalPath;
    assert SourceKind("").None?;
    if e.Identifier? {
      NoInput(e, BoundNames(c.env));
      ReadTaint(w, c.clock, c.env, e.name);
    } else {
      PathOrNone(e, BoundNames(c.env), 0);
    }
  }

  lemma {:induction false} SoundOperand(w: World, cfg: Script, e: Expr, a: Abs, c: Con)
    requires Covers(w, a, c) && a.vars != [] && (e.Await? || e.Unary?) && Supported(w.keeps, cfg, e, a)
    requires SourceKind(GlobalPath(e, Bound(a.vars))).None?
    ensures ResultCovered(w, AbsExpr(cfg, e, a), RunExpr(w, cfg, e, c))
    decreases e, 0
  {
    hide GlobalPath; hide SourceKind; hide Covers; hide Tainted; hide Meet;
    NoInput(e, BoundNames(c.env));
    LaterCovers(w, a, c);
    SoundExpr(w, cfg, e.operand, a, c.Later());
    var x, r := AbsExpr(cfg, e.operand, a), RunExpr(w, cfg, e.operand, c.Later());
    var data := if e.Await? then w.awaited(c.clock, r.val.data) else w.unary(c.clock, r.val.data);
    MeetCovers(w, x.after, r.after, r.val.(data := data), x.value);
  }

  lemma {:induction false} SoundParts(w: World, cfg: Script, e: Expr, a: Abs, c: Con)
    requires Covers(w, a, c) && a.vars != [] && (e.Template? || e.Sequence?) && Supported(w.keeps, cfg, e, a)
    requires SourceKind(GlobalPath(e, Bound(a.vars))).None?
    ensures ResultCovered(w, AbsExpr(cfg, e, a), RunExpr(w, cfg, e, c))
    decreases e, 0
  {
    hide GlobalPath; hide SourceKind; hide JoinAll; hide AbsList; hide RunList; hide Covers; hide Meet;
    NoInput(e, BoundNames(c.env));
    LaterCovers(w, a, c);
    SoundList(w, cfg, e.parts, a, c.Later());
    var x, r := AbsList(cfg, e.parts, a), RunList(w, cfg, e.parts, c.Later());
    if e.Template? {
      MeetCovers(w, x.after, r.after, Val(w.template(c.clock, Datas(r.vals)), Taints(r.vals)), JoinAll(x.values));
    }
  }

  lemma {:induction false} SoundAssign(w: World, cfg: Script, e: Expr, a: Abs, c: Con)
    requires Covers(w, a, c) && a.vars != [] && e.Assign? && Supported(w.keeps, cfg, e, a)
    requires SourceKind(GlobalPath(e, Bound(a.vars))).None?
    ensures ResultCovered(w, AbsExpr(cfg, e, a), RunExpr(w, cfg, e, c))
    decreases e, 0
  {
    hide GlobalPath; hide SourceKind; hide Covers; hide Tainted; hide AbsStore; hide Store; hide SupportedTarget;
    AbsExprCases(cfg, e, a);
    NoInput(e, BoundNames(c.env));
    LaterCovers(w, a, c);
    SoundExpr(w, cfg, e.right, a, c.Later());
    var x, r := AbsExpr(cfg, e.right, a), RunExpr(w, cfg, e.right, c.Later());
    StoreCovers(w, cfg, e.left, x, r);
  }

  /** Storing a covered value keeps the state covered, and the value. */
  lemma StoreCovers(w: World, cfg: Script, left: Expr, x: Outcome, r: Delivery)
    requires x.after.vars != [] && r.after.env != [] && ResultCovered(w, x, r) && SupportedTarget(cfg, left, x)
    ensures ResultCovered(w, Outcome(x.value, AbsStore(cfg, left, x.value, x.after)),
                          Delivery(r.val, Store(w, cfg, left, r.val, r.after)))
  {
    var known := Known(w, x.after.flows);
    if left.Identifier? {
      WriteCovers(known, x.after.vars, r.after.env, left.name, x.value, r.val);
    } else {
      PutOutside(w, cfg, left, x, r);
    }
  }

  /** A value put into a property. */
  lemma PutOutside(w: World, cfg: Script, left: Expr, x: Outcome, r: Delivery)
    requires x.after.vars != [] && r.after.env != [] && ResultCovered(w, x, r) && SupportedTarget(cfg, left, x)
    requires !left.Identifier?
    ensures ResultCovered(w, Outcome(x.value, AbsStore(cfg, left, x.value, x.after)),
                          Delivery(r.val, Store(w, cfg, left, r.val, r.after)))
  {
    hide Record; hide Reach; hide Covered;
    var after, m := AbsStore(cfg, left, x.value, x.after), Member(left);
    var taint := r.val.taint + Echo(w, r.after);
    EchoKnown(w, x.after, r.after);
    KnownGrows(w, x.after.flows, after.flows);
    CoversMore(w, x.after, r.after, after.flows);
    if m.Some? && SinkProperty(m.value.1) {
      RecordCovers(Known(w, after.flows), cfg, x.after.flows, Node(left), m.value.1, x.value, taint);
    }
    assert taint <= SourcesOf(after.flows);
  }

  lemma ResultParts(w: World, x: Outcome, r: Delivery)
    requires ResultCovered(w, x, r)
    ensures Covers(w, x.after, r.after) && Tainted(Known(w, x.after.flows), r.val.taint, x.value)
  {
  }

  lemma Together(w: World, x: Outcome, r: Delivery)
    requires Covers(w, x.after, r.after) && Tainted(Known(w, x.after.flows), r.val.taint, x.value)
    ensures ResultCovered(w, x, r)
  {
  }

  /** The values of two evaluations in a row are both covered by their join, and so is the state between them. */
  lemma JoinCovers(w: World, x: Outcome, r: Delivery, y: Outcome, q: Delivery)
    requires ResultCovered(w, x, r) && ResultCovered(w, y, q) && x.after.flows <= y.after.flows
    ensures var known, both := Known(w, y.after.flows), Join(x.value, y.value);
            && Tainted(known, r.val.taint, both) && Tainted(known, q.val.taint, both)
            && Tainted(known, r.val.taint + q.val.taint, both)
    ensures Covers(w, x.after.(flows := y.after.flows), r.after)
  {
    hide Join; hide Covers;
    KnownGrows(w, x.after.flows, y.after.flows);
    CoversMore(w, x.after, r.after, y.after.flows);
  }

  /** A merge of two branches covers what either of them covers. */
  lemma EitherCovers(w: World, out: seq<Vars>, left: Abs, right: Abs, c: Con)
    requires |out| == |left.vars| == |right.vars| && SameNames(out, left.vars) && SameNames(out, right.vars)
    requires left.flows == right.flows && (Covers(w, left, c) || Covers(w, right, c))
    ensures Covers(w, Abs(MergeChain(out, left.vars, right.vars), left.flows), c)
  {
    MergeCovers(Known(w, left.flows), out, left.vars, right.vars, c.env);
  }

  /** A literal left operand decides in a run as it does in the analysis. */
  lemma LiteralDecides(w: World, cfg: Script, e: Expr, c: Con)
    requires c.env != [] && e.Binary? && e.left.BooleanLiteral? && !e.op.OtherBinary?
    ensures var l := RunExpr(w, cfg, e.left, c.Later());
            RunBinary(w, cfg, e, c) == if SkipsRight(e) then l else RunExpr(w, cfg, e.right, l.after)
  {
    hide GlobalPath; hide SourceKind;
    NoInput(e.left, BoundNames(c.env));
  }

  lemma {:induction false} SoundBinary(w: World, cfg: Script, e: Expr, a: Abs, c: Con)
    requires Covers(w, a, c) && a.vars != [] && e.Binary? && Supported(w.keeps, cfg, e, a)
    requires SourceKind(GlobalPath(e, Bound(a.vars))).None?
    ensures ResultCovered(w, AbsBinary(cfg, e, a), RunBinary(w, cfg, e, c))
    decreases e, 0
  {
    hide GlobalPath; hide SourceKind; hide AbsExpr; hide Covers; hide MergeChain; hide Meet; hide Tainted;
    hide ResultCovered; hide RunExpr;
    LaterCovers(w, a, c);
    SoundExpr(w, cfg, e.left, a, c.Later());
    if SkipsRight(e) {
      LiteralDecides(w, cfg, e, c);
    } else {
      var x, r := AbsExpr(cfg, e.left, a), RunExpr(w, cfg, e.left, c.Later());
      ResultParts(w, x, r);
      SoundExpr(w, cfg, e.right, x.after, r.after);
      var y, q := AbsExpr(cfg, e.right, x.after), RunExpr(w, cfg, e.right, r.after);
      ResultParts(w, y, q);
      JoinCovers(w, x, r, y, q);
      if e.op.OtherBinary? {
        MeetCovers(w, y.after, q.after, Val(w.binary(c.clock, e.op, r.val.data, q.val.data), r.val.taint + q.val.taint),
                   Join(x.value, y.value));
      } else if MayNotRun(e) {
        ExprKeepsNames(w.keeps, cfg, e.right, x.after);
        EitherCovers(w, x.after.vars, x.after.(flows := y.after.flows), y.after, r.after);
        EitherCovers(w, x.after.vars, x.after.(flows := y.after.flows), y.after, q.after);
        var merged := Outcome(Join(x.value, y.value),
                              Abs(MergeChain(x.after.vars, x.after.vars, y.after.vars), y.after.flows));
        Together(w, merged, r);
        Together(w, merged, q);
      } else {
        LiteralDecides(w, cfg, e, c);
        Together(w, Outcome(Join(x.value, y.value), y.after), q);
      }
    }
  }

  lemma {:induction false} SoundConditional(w: World, cfg: Script, e: Expr, a: Abs, c: Con)
    requires Covers(w, a, c) && a.vars != [] && e.Conditional? && Supported(w.keeps, cfg, e, a)
    requires SourceKind(GlobalPath(e, Bound(a.vars))).None? && SourceKind(GlobalPath(e, BoundNames(c.env))).None?
    ensures ResultCovered(w, AbsConditional(cfg, e, a), RunExpr(w, cfg, e, c))
    decreases e, 0
  {
    hide GlobalPath; hide SourceKind; hide AbsExpr; hide Covers; hide MergeChain; hide Tainted; hide ResultCovered;
    LaterCovers(w, a, c);
    SoundExpr(w, cfg, e.test, a, c.Later());
    var t, tr := AbsExpr(cfg, e.test, a), RunExpr(w, cfg, e.test, c.Later());
    ResultParts(w, t, tr);
    if e.test.BooleanLiteral? {
      NoInput(e.test, BoundNames(c.env));
      SoundExpr(w, cfg, if e.test.truth then e.consequent else e.alternate, t.after, tr.after);
    } else {
      SoundBranches(w, cfg, e, t.after, tr.after, w.Truthy(tr.val.data));
    }
  }

  /** Either alternative of a conditional expression, after its test. */
  lemma {:induction false} SoundBranches(w: World, cfg: Script, e: Expr, t: Abs, c: Con, yes: bool)
    requires Covers(w, t, c) && t.vars != [] && e.Conditional? && Supported(w.keeps, cfg, e.consequent, t)
    requires Supported(w.keeps, cfg, e.alternate, t.(flows := AbsExpr(cfg, e.consequent, t).after.flows))
    ensures var l := AbsExpr(cfg, e.consequent, t);
            var r := AbsExpr(cfg, e.alternate, t.(flows := l.after.flows));
            var x := Outcome(Join(l.value, r.value),
                             Abs(MergeChain(t.vars, l.after.vars, r.after.vars), r.after.flows));
            ResultCovered(w, x, RunExpr(w, cfg, if yes then e.consequent else e.alternate, c))
    decreases e, 0, 0
  {
    hide GlobalPath; hide SourceKind; hide AbsExpr; hide Covers; hide MergeChain; hide Tainted; hide ResultCovered;
    hide RunExpr; hide Join;
    LaterCovers(w, t, c);
    var l := AbsExpr(cfg, e.consequent, t);
    var u := t.(flows := l.after.flows);
    var r := AbsExpr(cfg, e.alternate, u);
    ExprKeepsNames(w.keeps, cfg, e.consequent, t);
    ExprKeepsNames(w.keeps, cfg, e.alternate, u);
    var taken := RunExpr(w, cfg, if yes then e.consequent else e.alternate, c);
    if yes {
      SoundExpr(w, cfg, e.consequent, t, c);
      ResultParts(w, l, taken);
      CoversMore(w, l.after, taken.after, r.after.flows);
    } else {
      CoversMore(w, t, c, l.after.flows);
      SoundExpr(w, cfg, e.alternate, u, c);
      ResultParts(w, r, taken);
    }
    OneOfJoin(w, l, r, taken.val.taint);
    EitherCovers(w, t.vars, l.after.(flows := r.after.flows), r.after, taken.after);
    Together(w, Outcome(Join(l.value, r.value), Abs(MergeChain(t.vars, l.after.vars, r.after.vars), r.after.flows)),
             taken);
  }

  lemma OneOfJoin(w: World, l: Outcome, r: Outcome, taint: set<Source>)
    requires l.after.flows <= r.after.flows
    requires Tainted(Known(w, l.after.flows), taint, l.value) || Tainted(Known(w, r.after.flows), taint, r.value)
    ensures Tainted(Known(w, r.after.flows), taint, Join(l.value, r.value))
  {
    hide Join;
    KnownGrows(w, l.after.flows, r.after.flows);
  }

  ghost predicate ValuesCovered(known: set<Source>, values: seq<seq<Source>>, vals: seq<Val>) {
    |values| == |vals| && forall i :: 0 <= i < |vals| ==> Tainted(known, vals[i].taint, values[i])
  }

  lemma {:induction false} SoundList(w: World, cfg: Script, es: seq<Expr>, a: Abs, c: Con)
    requires Covers(w, a, c) && a.vars != [] && SupportedList(w.keeps, cfg, es, a)
    ensures var x, r := AbsList(cfg, es, a), RunList(w, cfg, es, c);
            var known := Known(w, x.after.flows);
            && Covers(w, x.after, r.after)
            && ValuesCovered(known, x.values, r.vals) && Tainted(known, Taints(r.vals), JoinAll(x.values))
    decreases es, 0
  {
    hide Covers; hide ResultCovered; hide RunExpr; hide AbsExpr; hide Supported;
    LaterCovers(w, a, c);
    var x, r := AbsList(cfg, es, a), RunList(w, cfg, es, c);
    if es != [] {
      var y, q := AbsList(cfg, es[..|es| - 1], a), RunList(w, cfg, es[..|es| - 1], c);
      SoundList(w, cfg, es[..|es| - 1], a, c);
      SoundExpr(w, cfg, es[|es| - 1], y.after, q.after);
      ResultParts(w, AbsExpr(cfg, es[|es| - 1], y.after), RunExpr(w, cfg, es[|es| - 1], q.after));
      KnownGrows(w, y.after.flows, x.after.flows);
    }
    TaintsCovered(Known(w, x.after.flows), x.values, r.vals);
  }

  lemma TaintsCovered(known: set<Source>, values: seq<seq<Source>>, vals: seq<Val>)
    requires ValuesCovered(known, values, vals)
    ensures Tainted(known, Taints(vals), JoinAll(values))
  {
    hide JoinAll;
    forall s | s in Taints(vals) ensures s in JoinAll(values) || s in known {
      var v :| v in vals && s in v.taint;
      var i :| 0 <= i < |vals| && vals[i] == v;
      assert s in values[i] ==> values[i] in values;
    }
  }

  // ---------------------------------------------------------------------------------------------
  // Calls
  // ---------------------------------------------------------------------------------------------

  /** The special meanings of a supported call are the same in a run. */
  lemma CallMeansTheSame(cfg: Script, e: Expr, keeps: string -> bool, args: Outcomes, small: set<string>)
    requires e.Call? && args.after.vars != [] && SupportedCall(keeps, cfg, e, args) && small <= Bound(args.after.vars)
    ensures StorageRead(e, small) == StorageRead(e, Bound(args.after.vars))
    ensures var path, run := GlobalPath(e.callee, Bound(args.after.vars)), GlobalPath(e.callee, small);
            (SinkFunction(run) || TimerFunction(run)) || (SinkFunction(path) || TimerFunction(path)) ==> run == path
  {
    var large := Bound(args.after.vars);
    if GlobalPath(e.callee, large) != "" {
      PathCovers(e.callee, small, large, 0);
      if Member(e.callee).Some? {
        ObjectPath(e.callee, large);
        PathCovers(Member(e.callee).value.0, small, large, 0);
      }
    } else {
      PathOrNone(e.callee, small, 0);
      PathOrNone(Member(e.callee).value.0, small, 0);
      PathOrNone(Member(e.callee).value.0, large, 0);
      assert !StorageObject(TrimWindow(""));
    }
  }

  lemma SupportedCallsOthers(keeps: string -> bool, cfg: Script, e: Expr, args: Outcomes)
    requires e.Call? && args.after.vars != [] && SupportedCall(keeps, cfg, e, args)
    ensures !CallsDeclared(cfg, e)
  {
  }

  lemma {:induction false} SoundCall(w: World, cfg: Script, e: Expr, a: Abs, c: Con)
    requires Covers(w, a, c) && a.vars != [] && e.Call? && Supported(w.keeps, cfg, e, a)
    requires SourceKind(GlobalPath(e, Bound(a.vars))).None?
    ensures ResultCovered(w, AbsCall(cfg, e, a), RunCall(w, cfg, e, c))
    decreases e, 0
  {
    hide Covers; hide ResultCovered; hide AbsCallAfter; hide CallAfter; hide SupportedCall; hide ValuesCovered;
    hide Tainted; hide AbsInvoke; hide CallsDeclared;
    LaterCovers(w, a, c);
    SoundList(w, cfg, e.args, a, c.Later());
    var x, r := AbsList(cfg, e.args, a), RunList(w, cfg, e.args, c.Later());
    SupportedCallsOthers(w.keeps, cfg, e, x);
    SoundCallAfter(w, cfg, e, c.clock, x, r);
  }

  lemma SoundCallAfter(w: World, cfg: Script, e: Expr, now: nat, x: Outcomes, r: Deliveries)
    requires e.Call? && |x.values| == |e.args| && x.after.vars != [] && Covers(w, x.after, r.after)
    requires ValuesCovered(Known(w, x.after.flows), x.values, r.vals) && SupportedCall(w.keeps, cfg, e, x)
    ensures r.after.env != [] && |r.vals| == |e.args|
    ensures ResultCovered(w, AbsCallAfter(cfg, e, x), CallAfter(w, cfg, e, now, r))
  {
    CoversParts(w, x.after, r.after);
    CallMeansTheSame(cfg, e, w.keeps, x, BoundNames(r.after.env));
    if StorageRead(e, Bound(x.after.vars)).Some? {
      SoundStorageRead(w, cfg, e, now, x, r);
    } else {
      SoundOrdinaryCall(w, cfg, e, now, x, r);
    }
  }

  /** A call that reads an input. */
  lemma SoundStorageRead(w: World, cfg: Script, e: Expr, now: nat, x: Outcomes, r: Deliveries)
    requires e.Call? && |x.values| == |e.args| == |r.vals| && x.after.vars != [] && Covers(w, x.after, r.after)
    requires SupportedCall(w.keeps, cfg, e, x) && r.after.env != []
    requires StorageRead(e, BoundNames(r.after.env)) == StorageRead(e, Bound(x.after.vars))
    requires StorageRead(e, Bound(x.after.vars)).Some?
    ensures ResultCovered(w, AbsCallAfter(cfg, e, x), CallAfter(w, cfg, e, now, r))
  {
    hide Covers; hide GlobalPath; hide Meet; hide ResultCovered;
    var read := StorageRead(e, Bound(x.after.vars)).value;
    MeetCovers(w, x.after, r.after, Input(w, now, cfg, e.at, read.0, read.1), SourceAt(cfg, e.at, read.0, read.1));
  }

  /** The arguments as the call meets them. */
  lemma ArgumentsCovered(w: World, x: Outcomes, r: Deliveries)
    requires Covers(w, x.after, r.after) && ValuesCovered(Known(w, x.after.flows), x.values, r.vals)
    ensures var known, vals := Known(w, x.after.flows), MeetAll(w, r.vals, r.after);
            ValuesCovered(known, x.values, vals) && Tainted(known, Taints(vals), JoinAll(x.values))
  {
    hide Covers; hide JoinAll;
    EchoKnown(w, x.after, r.after);
    TaintsCovered(Known(w, x.after.flows), x.values, MeetAll(w, r.vals, r.after));
  }

  /** Whatever the object of a supported call carries, the analysis knows. */
  lemma ReceiverCovers(w: World, cfg: Script, e: Expr, x: Outcomes, c: Con)
    requires e.Call? && x.after.vars != [] && Covers(w, x.after, c)
    requires Member(e.callee).Some? ==> SupportedRef(cfg, Member(e.callee).value.0, x.after.vars)
    ensures if Member(e.callee).None? then ReceiverTaint(w, cfg, e, c) == {}
            else Tainted(Known(w, x.after.flows), ReceiverTaint(w, cfg, e, c),
                         AbsExpr(cfg, Member(e.callee).value.0, x.after).value)
  {
    hide SupportedRef; hide RefTaint; hide AbsExpr; hide Echo;
    if Member(e.callee).Some? {
      EchoKnown(w, x.after, c);
      RefCovers(Known(w, x.after.flows), cfg, Member(e.callee).value.0, x.after, c.env);
    }
  }

  /** Everything given to an ordinary call is in its value. */
  lemma GivenCovered(cfg: Script, e: Expr, x: Outcomes, known: set<Source>, given: set<Source>, receiver: set<Source>)
    requires e.Call? && PlainReference(e.callee) && x.after.vars != []
    requires StorageRead(e, Bound(x.after.vars)).None? && Tainted(known, given, JoinAll(x.values))
    requires if Member(e.callee).None? then receiver == {}
             else Tainted(known, receiver, AbsExpr(cfg, Member(e.callee).value.0, x.after).value)
    ensures Tainted(known, given + receiver, AbsCallAfter(cfg, e, x).value)
  {
    hide AbsExpr; hide JoinAll; hide Join; hide GlobalPath;
  }

  /** Every sink an ordinary call reaches in a run is recorded. */
  lemma SinksCovered(cfg: Script, e: Expr, x: Outcomes, known: set<Source>, run: string, vals: seq<Val>,
                     receiver: set<Source>)
    requires e.Call? && PlainReference(e.callee) && x.after.vars != [] && |x.values| == |e.args| && cfg.Inside(e.at)
    requires StorageRead(e, Bound(x.after.vars)).None? && ValuesCovered(known, x.values, vals)
    requires Tainted(known, Taints(vals) + receiver, AbsCallAfter(cfg, e, x).value)
    requires var path := GlobalPath(e.callee, Bound(x.after.vars));
             (SinkFunction(run) || TimerFunction(run)) || (SinkFunction(path) || TimerFunction(path)) ==> run == path
    ensures ReachedIn(known, CallSinks(cfg, e, run, vals, receiver), AbsCallAfter(cfg, e, x).after.flows)
  {
    hide GlobalPath; hide JoinAll; hide Join; hide AbsExpr;
    var path, y := GlobalPath(e.callee, Bound(x.after.vars)), AbsCallAfter(cfg, e, x);
    var marked := if Member(e.callee).None? then x.after
                  else AbsMethodSink(cfg, e.at, Member(e.callee).value.1, LiteralKey(e.args), x.values, x.after);
    assert y.after == AbsSinkCall(cfg, e.at, path, x.values, y.value, marked);
    MethodSinkCovered(cfg, e, x, known, vals);
    PathSinkCovered(cfg, e, run, path, x.values, known, vals, y.value, Taints(vals) + receiver, marked);
  }

  lemma MethodSinkCovered(cfg: Script, e: Expr, x: Outcomes, known: set<Source>, vals: seq<Val>)
    requires e.Call? && ValuesCovered(known, x.values, vals) && |x.values| == |e.args| && cfg.Inside(e.at)
    ensures Member(e.callee).None? ==> MethodSinks(cfg, e, vals) == {}
    ensures Member(e.callee).Some? ==>
              ReachedIn(known, MethodSinks(cfg, e, vals),
                        AbsMethodSink(cfg, e.at, Member(e.callee).value.1, LiteralKey(e.args), x.values, x.after).flows)
  {
    hide Record; hide Reach;
    if |vals| > 1 && Member(e.callee).Some? {
      var m := Member(e.callee).value.1;
      RecordCovers(known, cfg, x.after.flows, e.at, m, x.values[1], vals[1].taint);
      if m == "setAttribute" && LiteralKey(e.args).Some? {
        var sink := "setAttribute(" + cfg.lower(LiteralKey(e.args).value) + ")";
        RecordCovers(known, cfg, x.after.flows, e.at, sink, x.values[1], vals[1].taint);
      }
    }
  }

  lemma PathSinkCovered(cfg: Script, e: Expr, run: string, path: string, values: seq<seq<Source>>, known: set<Source>,
                        vals: seq<Val>, value: seq<Source>, taint: set<Source>, a: Abs)
    requires e.Call? && ValuesCovered(known, values, vals) && cfg.Inside(e.at) && Tainted(known, taint, value)
    requires (SinkFunction(run) || TimerFunction(run)) || (SinkFunction(path) || TimerFunction(path)) ==> run == path
    ensures ReachedIn(known, PathSinks(cfg, e.at, run, vals, taint),
                      AbsSinkCall(cfg, e.at, path, values, value, a).flows)
  {
    hide Record; hide Reach; hide SinkFunction; hide TimerFunction;
    assert !(SinkFunction(path) && TimerFunction(path)) by { OneKindOfSink(path); }
    RecordCovers(known, cfg, a.flows, e.at, path, value, taint);
    if vals != [] {
      RecordCovers(known, cfg, a.flows, e.at, path, values[0], vals[0].taint);
    }
  }

  lemma OneKindOfSink(path: string)
    ensures !(SinkFunction(path) && TimerFunction(path))
  {
  }

  /** What a function keeps has been reported. */
  lemma KeptIsReported(w: World, cfg: Script, e: Expr, x: Outcomes, env: seq<Frame>, given: set<Source>)
    requires e.Call? && x.after.vars != [] && SupportedCall(w.keeps, cfg, e, x) && w.keeps(Spelling(e.callee))
    requires StorageRead(e, Bound(x.after.vars)).None?
    requires var y := AbsCallAfter(cfg, e, x);
             Covered(Known(w, y.after.flows), x.after.vars, env) && Tainted(Known(w, y.after.flows), given, y.value)
    ensures given + GlobalTaints(env) <= SourcesOf(AbsCallAfter(cfg, e, x).after.flows)
  {
    hide AbsCallAfter; hide GlobalPath;
    var flows, n := AbsCallAfter(cfg, e, x).after.flows, |env| - 1;
    assert FrameCovered(Known(w, flows), x.after.vars[n], env[n]);
    forall s | s in GlobalTaints(env) ensures s in SourcesOf(flows) {
      var v :| v in env[n].Values && s in v.taint;
      var name :| name in env[n] && env[n][name] == v;
      assert Tainted(Known(w, flows), v.taint, x.after.vars[n][name]);
      assert x.after.vars[n][name] in x.after.vars[n].Values && AllReported(x.after.vars[n][name], flows);
    }
  }

  /** A call that reads no input. */
  lemma SoundOrdinaryCall(w: World, cfg: Script, e: Expr, now: nat, x: Outcomes, r: Deliveries)
    requires e.Call? && |x.values| == |e.args| == |r.vals| && x.after.vars != [] && Covers(w, x.after, r.after)
    requires ValuesCovered(Known(w, x.after.flows), x.values, r.vals)
    requires SupportedCall(w.keeps, cfg, e, x) && r.after.env != []
    requires StorageRead(e, BoundNames(r.after.env)).None? && StorageRead(e, Bound(x.after.vars)).None?
    requires var path, run := GlobalPath(e.callee, Bound(x.after.vars)), GlobalPath(e.callee, BoundNames(r.after.env));
             (SinkFunction(run) || TimerFunction(run)) || (SinkFunction(path) || TimerFunction(path)) ==> run == path
    ensures ResultCovered(w, AbsCallAfter(cfg, e, x), CallAfter(w, cfg, e, now, r))
  {
    hide Meet; hide MeetAll; hide ReceiverTaint; hide CallSinks; hide GlobalPath; hide ResultCovered; hide SupportedRef;
    hide AbsCallAfter; hide JoinAll; hide AbsExpr; hide StorageRead; hide SinkFunction; hide TimerFunction;
    hide Covered;
    hide ValuesCovered; hide GlobalTaints; hide Taints;
    var y, d := AbsCallAfter(cfg, e, x), r.after;
    var run := GlobalPath(e.callee, BoundNames(d.env));
    var vals, receiver := MeetAll(w, r.vals, d), ReceiverTaint(w, cfg, e, d);
    var given, sinks := Taints(vals) + receiver, CallSinks(cfg, e, run, vals, receiver);
    var kept := if w.keeps(Spelling(e.callee)) then given + GlobalTaints(d.env) else {};
    var after := d.(reached := d.reached + sinks, stored := d.stored + kept).Later();
    ArgumentsCovered(w, x, r);
    ReceiverCovers(w, cfg, e, x, d);
    GivenCovered(cfg, e, x, Known(w, x.after.flows), Taints(vals), receiver);
    SinksCovered(cfg, e, x, Known(w, x.after.flows), run, vals, receiver);
    CallKeepsScopes(cfg, e, x);
    KnownGrows(w, x.after.flows, y.after.flows);
    CoversMore(w, x.after, d, y.after.flows);
    if w.keeps(Spelling(e.callee)) {
      KeptIsReported(w, cfg, e, x, d.env, given);
    }
    assert Covers(w, y.after, after);
    MeetCovers(w, y.after, after, Val(w.call(now, Spelling(e.callee), Datas(vals)), given), y.value);
  }

  lemma CallKeepsScopes(cfg: Script, e: Expr, x: Outcomes)
    requires e.Call? && x.after.vars != []
    ensures AbsCallAfter(cfg, e, x).after.vars == x.after.vars && x.after.flows <= AbsCallAfter(cfg, e, x).after.flows
  {
  }

  // ---------------------------------------------------------------------------------------------
  // Statements: once a run has returned, only what it reached before still counts
  // ---------------------------------------------------------------------------------------------

  ghost predicate StmtCovers(w: World, a: Abs, c: Con) {
    var known := Known(w, a.flows);
    && ReachedIn(known, c.reached, a.flows) && c.stored <= SourcesOf(a.flows)
    && (c.returned || Covered(known, a.vars, c.env))
  }

  /** Flows found in code that a returned run does not reach do not hurt. */
  lemma ReturnedCovers(w: World, a: Abs, c: Con, after: Abs)
    requires StmtCovers(w, a, c) && a.flows <= after.flows && c.returned
    ensures StmtCovers(w, after, c)
  {
    KnownGrows(w, a.flows, after.flows);
    assert forall f :: f in a.flows ==> f in after.flows;
  }

  /** A binding changes the names of one scope only. */
  lemma BindCovers(known: set<Source>, vars: seq<Vars>, env: seq<Frame>, level: nat, name: string, value: seq<Source>,
                   v: Val)
    requires Covered(known, vars, env) && level < |vars| && Tainted(known, v.taint, value)
    ensures Covered(known, vars[level := vars[level][name := value]], env[level := env[level][name := v]])
  {
    FrameUpdate(known, vars[level], env[level], name, value, v);
  }

  lemma {:induction false} SoundBindings(w: World, cfg: Script, bs: seq<Binding>, level: nat, a: Abs, c: Con,
                                         hoisted: bool)
    requires Covers(w, a, c) && level < |a.vars| && SupportedBindings(w.keeps, cfg, bs, level, a, hoisted)
    ensures level < |c.env| && Covers(w, AbsBindings(cfg, bs, level, a), RunBindings(w, cfg, bs, level, c))
    decreases bs, 0
  {
    hide RunExpr; hide Supported; hide Covered; hide ReachedIn; hide Tainted;
    CoversLevels(w, a, c);
    if bs != [] {
      var b := bs[|bs| - 1];
      SoundBindings(w, cfg, bs[..|bs| - 1], level, a, c, hoisted);
      var x, r := AbsBindings(cfg, bs[..|bs| - 1], level, a), RunBindings(w, cfg, bs[..|bs| - 1], level, c);
      if b.initializer.NoExpr? {
        Undefined(w, x);
        BindCovers(Known(w, x.flows), x.vars, r.env, level, b.target.name, [], w.Undefined());
      } else {
        SoundExpr(w, cfg, b.initializer, x, r);
        var y, q := AbsExpr(cfg, b.initializer, x), RunExpr(w, cfg, b.initializer, r);
        BindCovers(Known(w, y.after.flows), y.after.vars, q.after.env, level, b.target.name, y.value, q.val);
      }
    }
  }

  lemma CoversLevels(w: World, a: Abs, c: Con)
    requires Covers(w, a, c)
    ensures |a.vars| == |c.env| && c.env != []
  {
  }

  lemma Undefined(w: World, a: Abs)
    ensures Tainted(Known(w, a.flows), w.Undefined().taint, [])
  {
  }

  lemma {:induction false} SoundStmt(w: World, cfg: Script, s: Stmt, a: Abs, c: Con)
    requires StmtCovers(w, a, c) && a.vars != [] && c.env != [] && SupportedStmt(w.keeps, cfg, s, a)
    ensures StmtCovers(w, AbsStmt(cfg, s, a), RunStmt(w, cfg, s, c))
    decreases s, 1
  {
    hide AbsExpr; hide RunExpr; hide Supported; hide Covered; hide ReachedIn; hide AbsBindings; hide RunBindings;
    hide AbsStmts; hide RunStmts; hide SupportedBindings; hide SupportedStmts; hide Known;
    if c.returned {
      ReturnedCovers(w, a, c, AbsStmt(cfg, s, a));
    } else {
      match s
      case ExprStmt(e) => SoundExpr(w, cfg, e, a, c);
      case Return(e) =>
        if e.NoExpr? {
          NothingReturned(w, cfg, a, c);
        } else {
          SoundExpr(w, cfg, e, a, c);
        }
      case Export(decl) =>
        if decl.ExprStmt? {
          SoundExpr(w, cfg, decl.value, a, c);
        } else {
          SoundStmt(w, cfg, decl, a, c);
        }
      case VarDecl(bindings) =>
        CoversLevels(w, a, c);
        SoundBindings(w, cfg, bindings, |a.vars| - 1, a, c, true);
      case LexicalDecl(bindings) => SoundBindings(w, cfg, bindings, 0, a, c, false);
      case Block(list) => SoundBlock(w, cfg, list, a, c);
      case If(_, _, _) => SoundIf(w, cfg, s, a, c);
      case _ =>
    }
  }

  lemma NothingReturned(w: World, cfg: Script, a: Abs, c: Con)
    requires a.vars != [] && c.env != []
    ensures AbsExpr(cfg, NoExpr, a) == Outcome([], a)
            && RunExpr(w, cfg, NoExpr, c) == Delivery(w.Undefined(), c.Later())
  {
  }

  lemma {:induction false} SoundBlock(w: World, cfg: Script, list: seq<Stmt>, a: Abs, c: Con)
    requires Covers(w, a, c) && a.vars != [] && SupportedStmt(w.keeps, cfg, Block(list), a)
    requires !c.returned
    ensures StmtCovers(w, AbsStmt(cfg, Block(list), a), RunStmt(w, cfg, Block(list), c))
    decreases list, 1
  {
    hide AbsStmts; hide RunStmts; hide SupportedStmts; hide Known; hide FrameCovered;
    var a', c' := a.(vars := [map[]] + a.vars), c.(env := [map[]] + c.env);
    EmptyFrame(Known(w, a.flows));
    CoveredCons(Known(w, a.flows), map[], map[], a.vars, c.env);
    SoundStmts(w, cfg, list, a', c');
    var x, r := AbsStmts(cfg, list, a'), RunStmts(w, cfg, list, c');
    if !r.returned {
      assert Covered(Known(w, x.flows), x.vars[1..], r.env[1..]);
    }
  }

  lemma EmptyFrame(known: set<Source>)
    ensures FrameCovered(known, map[], map[])
  {
  }

  lemma {:induction false} SoundStmts(w: World, cfg: Script, list: seq<Stmt>, a: Abs, c: Con)
    requires StmtCovers(w, a, c) && a.vars != [] && c.env != [] && SupportedStmts(w.keeps, cfg, list, a)
    ensures StmtCovers(w, AbsStmts(cfg, list, a), RunStmts(w, cfg, list, c))
    decreases list, 0
  {
    hide StmtCovers; hide AbsStmt; hide RunStmt; hide SupportedStmt;
    if list != [] {
      var init := list[..|list| - 1];
      SoundStmts(w, cfg, init, a, c);
      SoundStmt(w, cfg, list[|list| - 1], AbsStmts(cfg, init, a), RunStmts(w, cfg, init, c));
    }
  }

  lemma {:induction false} SoundIf(w: World, cfg: Script, s: Stmt, a: Abs, c: Con)
    requires Covers(w, a, c) && a.vars != [] && s.If? && SupportedStmt(w.keeps, cfg, s, a) && !c.returned
    ensures StmtCovers(w, AbsIf(cfg, s, a), RunStmt(w, cfg, s, c))
    decreases s, 0
  {
    hide AbsExpr; hide AbsStmt; hide Supported; hide MergeChain; hide GlobalPath; hide SourceKind;
    hide Covers; hide StmtCovers; hide ResultCovered;
    LaterCovers(w, a, c);
    SoundExpr(w, cfg, s.test, a, c);
    var t, tr := AbsExpr(cfg, s.test, a), RunExpr(w, cfg, s.test, c);
    ResultParts(w, t, tr);
    AsStatement(w, t.after, tr.after);
    if s.test.BooleanLiteral? {
      NoInput(s.test, BoundNames(c.env));
      SoundStmt(w, cfg, if s.test.truth then s.consequent else s.alternate, t.after, tr.after);
    } else {
      SoundAlternatives(w, cfg, s, t.after, tr.after, w.Truthy(tr.val.data));
    }
  }

  lemma AsStatement(w: World, a: Abs, c: Con)
    requires Covers(w, a, c)
    ensures StmtCovers(w, a, c) && c.env != []
  {
  }

  /** Either alternative of a conditional statement, after its test. */
  lemma {:induction false} SoundAlternatives(w: World, cfg: Script, s: Stmt, t: Abs, c: Con, yes: bool)
    requires Covers(w, t, c) && t.vars != [] && s.If? && BranchStatement(s.consequent) && BranchStatement(s.alternate)
    requires SupportedStmt(w.keeps, cfg, s.consequent, t)
    requires SupportedStmt(w.keeps, cfg, s.alternate, t.(flows := AbsStmt(cfg, s.consequent, t).flows))
    ensures var l := AbsStmt(cfg, s.consequent, t);
            var r := AbsStmt(cfg, s.alternate, t.(flows := l.flows));
            StmtCovers(w, Abs(MergeChain(t.vars, l.vars, r.vars), r.flows),
                       RunStmt(w, cfg, if yes then s.consequent else s.alternate, c))
    decreases s, 0, 0
  {
    hide AbsStmt; hide RunStmt; hide SupportedStmt; hide MergeChain; hide StmtCovers; hide Covers;
    LaterCovers(w, t, c);
    AsStatement(w, t, c);
    var l := AbsStmt(cfg, s.consequent, t);
    var u := t.(flows := l.flows);
    var r := AbsStmt(cfg, s.alternate, u);
    BranchKeepsNames(w.keeps, cfg, s.consequent, t);
    BranchKeepsNames(w.keeps, cfg, s.alternate, u);
    var taken := RunStmt(w, cfg, if yes then s.consequent else s.alternate, c);
    if yes {
      SoundStmt(w, cfg, s.consequent, t, c);
      StmtCoversMore(w, l, taken, r.flows);
    } else {
      CoversMore(w, t, c, l.flows);
      AsStatement(w, u, c);
      SoundStmt(w, cfg, s.alternate, u, c);
    }
    EitherStmtCovers(w, t.vars, l.(flows := r.flows), r, taken);
  }

  lemma StmtCoversMore(w: World, a: Abs, c: Con, flows: seq<Flow>)
    requires StmtCovers(w, a, c) && a.flows <= flows
    ensures StmtCovers(w, a.(flows := flows), c)
  {
    hide Covered;
    KnownGrows(w, a.flows, flows);
    assert forall f :: f in a.flows ==> f in flows;
    if !c.returned {
      CoveredMore(Known(w, a.flows), Known(w, flows), a.vars, c.env);
    }
  }

  lemma EitherStmtCovers(w: World, out: seq<Vars>, left: Abs, right: Abs, c: Con)
    requires |out| == |left.vars| == |right.vars| && SameNames(out, left.vars) && SameNames(out, right.vars)
    requires left.flows == right.flows && (StmtCovers(w, left, c) || StmtCovers(w, right, c))
    ensures StmtCovers(w, Abs(MergeChain(out, left.vars, right.vars), left.flows), c)
  {
    if !c.returned {
      MergeCovers(Known(w, left.flows), out, left.vars, right.vars, c.env);
    }
  }

  /** A branch binds no name except in the outermost scope. */
  lemma {:induction false} BranchKeepsNames(keeps: string -> bool, cfg: Script, s: Stmt, a: Abs)
    requires a.vars != [] && BranchStatement(s) && SupportedStmt(keeps, cfg, s, a)
    ensures SameNames(a.vars, AbsStmt(cfg, s, a).vars)
    decreases s, 1
  {
    match s
    case ExprStmt(e) => ExprKeepsNames(keeps, cfg, e, a);
    case Return(e) =>
      if !e.NoExpr? {
        ExprKeepsNames(keeps, cfg, e, a);
      }
    case VarDecl(bindings) => BindingsKeepNames(keeps, cfg, bindings, |a.vars| - 1, a, true);
    case Block(list) =>
      var a' := a.(vars := [map[]] + a.vars);
      StmtsKeepOuterNames(keeps, cfg, list, a');
      assert SameNames(a.vars, AbsStmts(cfg, list, a').vars[1..]);
    case If(test, consequent, alternate) =>
      ExprKeepsNames(keeps, cfg, test, a);
      IfKeepsNames(keeps, cfg, s, a);
    case _ =>
  }

  lemma {:induction false} IfKeepsNames(keeps: string -> bool, cfg: Script, s: Stmt, a: Abs)
    requires a.vars != [] && s.If? && SupportedStmt(keeps, cfg, s, a)
    requires SameNames(a.vars, AbsExpr(cfg, s.test, a).after.vars)
    ensures SameNames(a.vars, AbsIf(cfg, s, a).vars)
    decreases s, 0
  {
    var t := AbsExpr(cfg, s.test, a).after;
    if s.test.BooleanLiteral? {
      BranchKeepsNames(keeps, cfg, if s.test.truth then s.consequent else s.alternate, t);
    } else {
      BranchKeepsNames(keeps, cfg, s.consequent, t);
      BranchKeepsNames(keeps, cfg, s.alternate, t.(flows := AbsStmt(cfg, s.consequent, t).flows));
    }
  }

  lemma {:induction false} BindingsKeepNames(keeps: string -> bool, cfg: Script, bs: seq<Binding>, level: nat, a: Abs,
                                             hoisted: bool)
    requires level < |a.vars| && SupportedBindings(keeps, cfg, bs, level, a, hoisted)
    ensures forall i :: 0 <= i < |a.vars| - 1 && i != level ==>
            AbsBindings(cfg, bs, level, a).vars[i].Keys == a.vars[i].Keys
    decreases bs, 0
  {
    if bs != [] {
      var b := bs[|bs| - 1];
      BindingsKeepNames(keeps, cfg, bs[..|bs| - 1], level, a, hoisted);
      if !b.initializer.NoExpr? {
        ExprKeepsNames(keeps, cfg, b.initializer, AbsBindings(cfg, bs[..|bs| - 1], level, a));
      }
    }
  }

  /** A statement list binds no name in the scopes around its own. */
  lemma {:induction false} StmtsKeepOuterNames(keeps: string -> bool, cfg: Script, list: seq<Stmt>, a: Abs)
    requires |a.vars| > 1 && SupportedStmts(keeps, cfg, list, a)
    ensures forall i :: 1 <= i < |a.vars| - 1 ==> AbsStmts(cfg, list, a).vars[i].Keys == a.vars[i].Keys
    decreases list, 0
  {
    if list != [] {
      var init, s := AbsStmts(cfg, list[..|list| - 1], a), list[|list| - 1];
      StmtsKeepOuterNames(keeps, cfg, list[..|list| - 1], a);
      StmtKeepsOuterNames(keeps, cfg, s, init);
    }
  }

  lemma {:induction false} StmtKeepsOuterNames(keeps: string -> bool, cfg: Script, s: Stmt, a: Abs)
    requires |a.vars| > 1 && SupportedStmt(keeps, cfg, s, a)
    ensures forall i :: 1 <= i < |a.vars| - 1 ==> AbsStmt(cfg, s, a).vars[i].Keys == a.vars[i].Keys
    decreases s, 2
  {
    if s.LexicalDecl? {
      BindingsKeepNames(keeps, cfg, s.bindings, 0, a, false);
    } else if !s.Export? {
      BranchKeepsNames(keeps, cfg, s, a);
    } else if s.decl.ExprStmt? {
      ExprKeepsNames(keeps, cfg, s.decl.value, a);
    } else {
      StmtKeepsOuterNames(keeps, cfg, s.decl, a);
    }
  }

  // ---------------------------------------------------------------------------------------------
  // Soundness
  // ---------------------------------------------------------------------------------------------

  /**
   * In every world, every input that reaches a sink when the program runs is reported: at this very
   * sink, or, if what was put outside may come back, at a sink at least. Only what comes back
   * can reach a sink at which it is not reported.
   */
  lemma FlowsCoverEveryRun(w: World, cfg: Script, program: seq<Stmt>)
    requires SupportedStmts(w.keeps, cfg, program, EMPTY)
    ensures var flows := AbsStmts(cfg, program, EMPTY).flows;
            forall f :: f in RunStmts(w, cfg, program, START).reached ==>
              f.source in SourcesOf(flows) && (!w.Echoing() ==> f in flows)
  {
    hide AbsStmts; hide RunStmts; hide SupportedStmts;
    var flows := AbsStmts(cfg, program, EMPTY).flows;
    StartCovers(w);
    SoundStmts(w, cfg, program, EMPTY, START);
    forall f | f in RunStmts(w, cfg, program, START).reached
      ensures f.source in SourcesOf(flows) && (!w.Echoing() ==> f in flows)
    {
      assert f in flows || f.source in Known(w, flows);
      assert f in flows ==> f.source in SourcesOf(flows);
    }
  }

  lemma StartCovers(w: World)
    ensures StmtCovers(w, EMPTY, START)
  {
  }
}
