/** The data-flow analyzer of pkg/jsanalysis/flow.go. */
module FlowAnalysis {
  import opened Prelude
  import opened FlowSyntax
  import opened FlowHeap
  import opened FlowSpec
  import opened FlowValues

  const MAX_STEPS: int := 10000
  const MAX_DEPTH: int := 128
  const MAX_SOURCES: int := 8
  const MAX_FLOWS: int := 64

  const SOURCE_LIMIT: string := "JavaScript data-flow source limit exceeded"
  const RESULT_LIMIT: string := "JavaScript data-flow result limit exceeded"
  const ALTERNATIVES: string := "JavaScript data-flow alternative function bodies require runtime analysis"

  // ---------------------------------------------------------------------------------------------
  // The heap as the specification sees it
  // ---------------------------------------------------------------------------------------------

  /** A function value as it is written. */
  function Text(f: FlowFunction): Fn {
    Fn(f.params, f.body)
  }

  function Texts(funs: map<string, FlowFunction>): map<string, Fn> {
    map n | n in funs :: Text(funs[n])
  }

  /**
   * What is known about a scope: nothing, or that it and the scopes around it (`line`) hold exactly
   * the plain values `vars` and, outermost, the functions `funs`, and that `around` of them lie around
   * the current function.
   */
  datatype Track = Untracked
                 | Tracked(line: seq<FlowScope>, vars: seq<Vars>, funs: map<string, FlowFunction>, around: nat) {
    ghost function Scopes(): set<FlowScope> {
      if Tracked? then Elements(line) else {}
    }

    ghost function Functions(): set<FlowFunction> {
      if Tracked? then funs.Values else {}
    }

    /** The names of the functions. */
    ghost function Names(): set<string> {
      if Tracked? then funs.Keys else {}
    }

    /** The setting of the specification inside so many calls. */
    ghost function In(script: Script, calls: int): Script {
      if Tracked? then
        script.(functions := Texts(funs), around := around,
                calls := if calls <= MAX_CALLS then MAX_CALLS - calls else 0)
      else script
    }
  }

  /** `line` is `s` followed by the scopes around it. */
  ghost predicate IsChain(line: seq<FlowScope>, s: FlowScope)
    reads line`parent
  {
    && |line| == s.depth + 1 && line[0] == s
    && (forall i :: 0 <= i < |line| - 1 ==> line[i].parent == line[i + 1])
    && line[|line| - 1].parent == null
    && (forall i :: 0 <= i < |line| ==> line[i].depth == s.depth - i)
  }

  /** The same; the outermost is a function scope, and the innermost one has `around` scopes around it. */
  ghost predicate IsLine(line: seq<FlowScope>, s: FlowScope, around: nat)
    reads line`parent
  {
    && IsChain(line, s) && around < |line| && line[|line| - 1 - around].isFunction && line[|line| - 1].isFunction
    && forall i :: 0 <= i < |line| - 1 - around ==> !line[i].isFunction
  }

  /** Every scope of a closed region has a chain in it. */
  lemma {:induction false} ChainOf(s: FlowScope, r: Region) returns (line: seq<FlowScope>)
    requires Closed(r) && s in r.scopes
    ensures IsChain(line, s) && Elements(line) <= r.scopes
    decreases s.depth
  {
    assert ParentIn(s, r);
    line := [s];
    if s.parent != null {
      var rest := ChainOf(s.parent, r);
      line := [s] + rest;
    }
  }

  /** The innermost scope that binds a name, if there is one. */
  ghost function BinderOf(p: FlowScope?, name: string, r: Region): (b: FlowScope?)
    requires Closed(r) && (p != null ==> p in r.scopes)
    reads r.scopes, r.functions
    ensures b != null ==> b in r.scopes && name in b.values
    decreases if p == null then 0 else p.depth + 1
  {
    if p == null || name in p.values then p
    else
      assert ParentIn(p, r);
      BinderOf(p.parent, name, r)
  }

  /** One step outwards. */
  lemma BinderNext(p: FlowScope, name: string, r: Region)
    requires Closed(r) && p in r.scopes
    ensures p.parent != null ==> p.parent in r.scopes && p.depth == p.parent.depth + 1
    ensures BinderOf(p, name, r) == if name in p.values then p else BinderOf(p.parent, name, r)
  {
    assert ParentIn(p, r);
  }

  lemma NoBinder(name: string, r: Region)
    requires Closed(r)
    ensures BinderOf(null, name, r) == null
  {
  }

  /** The names bound in a scope or around it. */
  ghost function NamesFrom(p: FlowScope?, r: Region): set<string>
    requires Closed(r) && (p != null ==> p in r.scopes)
    reads r.scopes, r.functions
    decreases if p == null then 0 else p.depth + 1
  {
    if p == null then {}
    else
      assert ParentIn(p, r);
      p.values.Keys + NamesFrom(p.parent, r)
  }

  lemma {:induction false} BoundNamesHaveBinders(p: FlowScope?, name: string, r: Region)
    requires Closed(r) && (p != null ==> p in r.scopes)
    ensures name in NamesFrom(p, r) <==> BinderOf(p, name, r) != null
    decreases if p == null then 0 else p.depth + 1
  {
    if p != null {
      assert ParentIn(p, r);
      BoundNamesHaveBinders(p.parent, name, r);
    }
  }

  /** `c` is the copy of `s` in the copied graph `q`; a complete copy is isomorphic to the original. */
  ghost predicate IsCopy(s: FlowScope, c: FlowScope, q: Region, sm: map<FlowScope, FlowScope>,
                         fm: map<FlowFunction, FlowFunction>, complete: bool)
    reads sm.Keys, fm.Keys, sm.Values, fm.Values
  {
    s in sm && c == sm[s] && q == Image(sm, fm) && (complete ==> Isomorphism(sm, fm))
  }

  lemma LessOfACopy(s: FlowScope, c: FlowScope, q: Region, sm: map<FlowScope, FlowScope>,
                    fm: map<FlowFunction, FlowFunction>, complete: bool)
    requires IsCopy(s, c, q, sm, fm, complete)
    ensures IsCopy(s, c, q, sm, fm, false)
  {
  }

  /** The tables of a chain of scopes. */
  ghost function ValuesAlong(line: seq<FlowScope>): (r: seq<map<string, FlowValue>>)
    reads line
    ensures |r| == |line|
  {
    seq(|line|, i requires 0 <= i < |line| reads line => line[i].values)
  }

  /** The tables of a scope and of the scopes around it. */
  ghost function ChainValues(p: FlowScope?, r: Region): (v: seq<map<string, FlowValue>>)
    requires Closed(r) && (p != null ==> p in r.scopes)
    reads r.scopes, r.functions
    ensures |v| == if p == null then 0 else p.depth + 1
    decreases if p == null then 0 else p.depth + 1
  {
    if p == null then []
    else
      assert ParentIn(p, r);
      [p.values] + ChainValues(p.parent, r)
  }

  lemma {:induction false} ChainHolds(line: seq<FlowScope>, s: FlowScope, r: Region)
    requires IsChain(line, s) && Closed(r) && s in r.scopes
    ensures ChainValues(s, r) == ValuesAlong(line)
    decreases s.depth
  {
    assert ParentIn(s, r);
    ChainParts(line, s);
    if s.parent != null {
      ChainHolds(line[1..], s.parent, r);
    }
  }

  /** A larger region does not change the chain. */
  lemma {:induction false} ChainWithin(p: FlowScope, r: Region, u: Region)
    requires Closed(r) && Closed(u) && r.Within(u) && p in r.scopes
    ensures ChainValues(p, r) == ChainValues(p, u)
    decreases p.depth
  {
    assert ParentIn(p, r);
    if p.parent != null {
      ChainWithin(p.parent, r, u);
    }
  }

  lemma NothingAround()
    ensures ValuesAlong([]) == MergedChain([], [], [])
  {
  }

  /** A chain is its innermost scope and the chain of the scopes around it. */
  lemma ChainParts(line: seq<FlowScope>, s: FlowScope)
    requires IsChain(line, s) && (s.parent == null ==> s.depth == 0)
    ensures |line| == s.depth + 1 && line[0] == s && ValuesAlong(line) == [s.values] + ValuesAlong(line[1..])
    ensures if s.parent == null then line[1..] == [] else IsChain(line[1..], s.parent)
    ensures forall x :: x in line <==> x == s || x in line[1..]
    ensures forall x :: x in line[1..] ==> x.depth < s.depth
  {
    if s.parent != null {
      assert |line| > 1 && line[1].depth == s.depth - 1;
    }
  }

  ghost predicate Shows(line: seq<FlowScope>, vars: seq<Vars>, funs: map<string, FlowFunction>)
    reads line
  {
    |line| == |vars| && forall i :: 0 <= i < |line| ==> line[i].values == Holding(vars[i], FunctionsOf(vars, funs, i))
  }

  /** The functions close over the outermost scope and are in the fragment specified. */
  ghost predicate Settled(line: seq<FlowScope>, funs: map<string, FlowFunction>)
    reads funs.Values
  {
    line != [] && forall n :: n in funs ==>
      funs[n].scope == line[|line| - 1] && DirectFunction(funs.Keys, Text(funs[n]))
  }

  /** The line and what its scopes hold are as `k` says. */
  ghost predicate Fits(k: Track, s: FlowScope)
    reads k.Scopes(), k.Functions()
  {
    k.Tracked? ==>
      && IsLine(k.line, s, k.around) && Shows(k.line, k.vars, k.funs)
      && Unshadowed(k.vars, k.funs.Keys) && Settled(k.line, k.funs)
  }

  ghost predicate Tracks(k: Track, s: FlowScope, r: Region)
    reads r.scopes, r.functions
  {
    k.Scopes() <= r.scopes && k.Functions() <= r.functions && Fits(k, s)
  }

  lemma LineDepths(line: seq<FlowScope>, s: FlowScope, around: nat)
    requires IsLine(line, s, around)
    ensures forall i :: 0 <= i < |line| ==> line[i].depth == s.depth - i
  {
  }

  lemma NothingKnown(s: FlowScope, r: Region)
    ensures Tracks(Untracked, s, r)
  {
  }

  lemma TracksWithin(k: Track, s: FlowScope, r: Region, u: Region)
    requires Tracks(k, s, r) && r.Within(u)
    ensures Tracks(k, s, u)
  {
  }

  /** What is known about the scope around a tracked one, `around` of which lie around its function. */
  ghost function Outer(k: Track, around: nat): Track {
    if k.Tracked? && |k.line| > 0 && |k.vars| > 0 then Tracked(k.line[1..], k.vars[1..], k.funs, around) else Untracked
  }

  lemma OuterTracks(k: Track, s: FlowScope, r: Region, around: nat)
    requires Tracks(k, s, r) && s.parent != null
    requires k.Tracked? ==> around + 1 < |k.line| && IsLine(k.line[1..], s.parent, around)
    ensures Tracks(Outer(k, around), s.parent, r)
    ensures k.Tracked? ==> Outer(k, around).Tracked? && |k.line| == |k.vars| == s.depth + 1
    ensures k.Tracked? ==> Outer(k, around) == Tracked(k.line[1..], k.vars[1..], k.funs, around)
  {
    hide Holding; hide DirectFunction; hide IsLine;
    if k.Tracked? {
      TracksHere(k, s, r);
      var line, vars := k.line[1..], k.vars[1..];
      assert forall i :: 0 <= i < |line| ==> line[i] == k.line[i + 1];
      forall i | 0 <= i < |line| ensures line[i].values == Holding(vars[i], FunctionsOf(vars, k.funs, i)) {
        assert FunctionsOf(vars, k.funs, i) == FunctionsOf(k.vars, k.funs, i + 1);
      }
      assert Elements(line) <= Elements(k.line);
    }
  }

  lemma TracksHere(k: Track, s: FlowScope, r: Region)
    requires Tracks(k, s, r)
    ensures k.Tracked? ==> |k.line| == |k.vars| == s.depth + 1 && IsLine(k.line, s, k.around)
    ensures k.Tracked? ==> Unshadowed(k.vars, k.Names())
  {
  }

  /** What is known about a scope says what its chain holds. */
  lemma TracksAlong(k: Track, s: FlowScope, r: Region, line: seq<FlowScope>)
    requires k.Tracked? && Tracks(k, s, r) && IsChain(line, s)
    ensures line == k.line && |line| == |k.vars| == s.depth + 1 && ValuesAlong(line) == HoldingAlong(k.vars, k.funs)
  {
    hide Holding; hide DirectFunction;
    ChainIsUnique(line, k.line, s);
  }

  lemma TracksAgain(k: Track, s: FlowScope, r: Region, vars: seq<Vars>)
    requires k.Tracked? && k.Scopes() <= r.scopes && k.Functions() <= r.functions
    requires IsLine(k.line, s, k.around) && Settled(k.line, k.funs)
    requires ValuesAlong(k.line) == HoldingAlong(vars, k.funs) && Unshadowed(vars, k.funs.Keys)
    ensures Tracks(k.(vars := vars), s, r)
  {
    hide Holding; hide IsLine; hide Settled; hide Unshadowed;
    assert |HoldingAlong(vars, k.funs)| == |k.line|;
    forall i | 0 <= i < |k.line| ensures k.line[i].values == Holding(vars[i], FunctionsOf(vars, k.funs, i)) {
      assert ValuesAlong(k.line)[i] == HoldingAlong(vars, k.funs)[i];
    }
  }

  /** What one scope of a tracked chain holds. */
  lemma TableAt(k: Track, s: FlowScope, r: Region, i: nat)
    requires k.Tracked? && Tracks(k, s, r) && i < |k.line|
    ensures |k.line| == |k.vars| && k.line[i] in r.scopes
    ensures k.line[i].values == Holding(k.vars[i], FunctionsOf(k.vars, k.funs, i))
    ensures k.line[i].parent == if i + 1 < |k.line| then k.line[i + 1] else null
  {
    hide DirectFunction; hide Holding;
  }

  /** A name of an inner scope names no function. */
  lemma FunctionsAreOutermost(k: Track, s: FlowScope, r: Region, name: string, i: nat)
    requires k.Tracked? && Tracks(k, s, r) && i <= |k.vars| && forall j :: 0 <= j < i ==> name !in k.vars[j]
    ensures i < |k.vars| && name in k.vars[i] && name in k.funs ==> i + 1 == |k.vars|
    ensures i == |k.vars| ==> name !in k.funs
  {
    hide DirectFunction; hide Holding;
  }

  lemma HeldAt(k: Track, name: string, i: nat)
    requires k.Tracked? && i < |k.vars| && name in k.vars[i] && (name in k.funs ==> i + 1 == |k.vars|)
    ensures Holding(k.vars[i], FunctionsOf(k.vars, k.funs, i))[name]
            == FlowValue(k.vars[i][name], "", if name in k.funs then k.funs[name] else null)
  {
  }

  lemma TracksSettled(k: Track, s: FlowScope, r: Region)
    requires Tracks(k, s, r)
    ensures k.Scopes() <= r.scopes && k.Functions() <= r.functions && (k.Tracked? ==> Settled(k.line, k.funs))
  {
  }

  /** A scope has one chain. */
  lemma {:induction false} ChainIsUnique(a: seq<FlowScope>, b: seq<FlowScope>, s: FlowScope)
    requires IsChain(a, s) && IsChain(b, s)
    ensures a == b
    decreases |a|
  {
    if |a| > 1 {
      assert a[1].depth == s.depth - 1 && a[0].parent == a[1] == b[1];
      ChainIsUnique(a[1..], b[1..], a[1]);
      assert a == [s] + a[1..] && b == [s] + b[1..];
    }
  }

  lemma ParentsOf(s: FlowScope, u: Region)
    requires Closed(u) && s in u.scopes
    ensures if s.parent == null then s.depth == 0 else s.parent in u.scopes && s.depth == s.parent.depth + 1
  {
    assert ParentIn(s, u);
  }

  /** Sets of scopes that contain the scopes around their members. */
  ghost predicate ParentsWithin(scopes: set<FlowScope>)
    reads scopes
  {
    forall s :: s in scopes && s.parent != null ==> s.parent in scopes
  }

  /** The lines of a clone: the copies of the scopes in the line. */
  ghost function ImageLine(line: seq<FlowScope>, sm: map<FlowScope, FlowScope>): seq<FlowScope>
    requires Elements(line) <= sm.Keys
  {
    seq(|line|, i requires 0 <= i < |line| => sm[line[i]])
  }

  /** A closed copied graph contains the scopes around every one of its scopes. */
  lemma {:induction false} LineIsCopied(line: seq<FlowScope>, s: FlowScope, sm: map<FlowScope, FlowScope>,
                                        fm: map<FlowFunction, FlowFunction>, i: nat)
    requires IsChain(line, s) && s in sm && Closed(Domain(sm, fm)) && i < |line|
    ensures line[i] in sm
  {
    if i > 0 {
      LineIsCopied(line, s, sm, fm, i - 1);
      assert ParentIn(line[i - 1], Domain(sm, fm));
    }
  }

  /** The copies of the functions. */
  ghost function ImageFunctions(funs: map<string, FlowFunction>,
                                fm: map<FlowFunction, FlowFunction>): map<string, FlowFunction>
    requires funs.Values <= fm.Keys
  {
    map n | n in funs :: fm[funs[n]]
  }

  /** A table is copied as it is, with the copies of its functions. */
  lemma HoldingIsCopied(vars: Vars, funs: map<string, FlowFunction>, c: map<string, FlowValue>,
                        fm: map<FlowFunction, FlowFunction>)
    requires c.Keys == vars.Keys && funs.Keys <= vars.Keys
    requires forall n :: n in vars ==> ValueMirrors(Holding(vars, funs)[n], c[n], fm)
    ensures funs.Values <= fm.Keys && c == Holding(vars, ImageFunctions(funs, fm))
  {
    forall f | f in funs.Values ensures f in fm {
      var n :| n in funs && funs[n] == f;
      assert Holding(vars, funs)[n].fn == f;
    }
  }

  /** The same functions in the same place, perhaps as different branch copies. */
  ghost predicate Twin(k: Track, kc: Track) {
    k.Tracked? && kc.Tracked? ==>
      kc.around == k.around && SameFunctions(k.funs, kc.funs) && Texts(k.funs) == Texts(kc.funs)
  }

  lemma TwinsMatch(k: Track, kc: Track)
    requires kc == k || Twin(k, kc)
    ensures k.Tracked? && kc.Tracked? ==> SameFunctions(k.funs, kc.funs) && kc.funs.Keys == k.funs.Keys
  {
  }

  lemma TwinsAgree(k: Track, kc: Track, script: Script, calls: int)
    requires Twin(k, kc) && k.Tracked? && kc.Tracked?
    ensures kc.In(script, calls) == k.In(script, calls) && kc.Names() == k.Names()
  {
  }

  lemma CloneTracks(k: Track, s: FlowScope, r: Region, sm: map<FlowScope, FlowScope>,
                    fm: map<FlowFunction, FlowFunction>)
    returns (kc: Track)
    requires k.Tracked? && Tracks(k, s, r) && s in sm && Isomorphism(sm, fm)
    ensures kc.Tracked? && kc.vars == k.vars && Twin(k, kc) && Tracks(kc, sm[s], Image(sm, fm))
  {
    hide Holding; hide Closed; hide DirectFunction; hide Unshadowed; hide IsChain; hide ScopesCorrespond;
    hide VariablesCorrespond; hide FunctionsCorrespond; hide SameFunctions; hide Texts; hide Settled;
    forall i | 0 <= i < |k.line| ensures k.line[i] in sm {
      LineIsCopied(k.line, s, sm, fm, i);
    }
    var line, last := ImageLine(k.line, sm), |k.line| - 1;
    TableIsCopied(k, s, r, sm, fm, last);
    kc := Tracked(line, k.vars, ImageFunctions(k.funs, fm), k.around);
    forall i | 0 <= i < |line| ensures line[i].values == Holding(k.vars[i], FunctionsOf(k.vars, kc.funs, i)) {
      TableIsCopied(k, s, r, sm, fm, i);
      assert i < last ==> ImageFunctions(map[], fm) == map[];
    }
    CloneIsLine(k.line, s, k.around, sm);
    FunctionsAreCopied(k, s, r, sm, fm);
  }

  lemma TableIsCopied(k: Track, s: FlowScope, r: Region, sm: map<FlowScope, FlowScope>,
                      fm: map<FlowFunction, FlowFunction>, i: nat)
    requires k.Tracked? && Tracks(k, s, r) && s in sm && Isomorphism(sm, fm) && i < |k.line| && k.line[i] in sm
    ensures var funs := FunctionsOf(k.vars, k.funs, i);
            funs.Values <= fm.Keys && sm[k.line[i]].values == Holding(k.vars[i], ImageFunctions(funs, fm))
  {
    hide Holding; hide Closed; hide DirectFunction; hide FunctionsCorrespond; hide ImageFunctions;
    var funs := FunctionsOf(k.vars, k.funs, i);
    HoldingKeys(k.vars[i], funs);
    HoldingIsCopied(k.vars[i], funs, sm[k.line[i]].values, fm);
  }

  /** The copied functions have the same text and close over the copy of the outermost scope. */
  lemma FunctionsAreCopied(k: Track, s: FlowScope, r: Region, sm: map<FlowScope, FlowScope>,
                           fm: map<FlowFunction, FlowFunction>)
    requires k.Tracked? && Tracks(k, s, r) && s in sm && Isomorphism(sm, fm) && k.funs.Values <= fm.Keys
    requires Elements(k.line) <= sm.Keys
    ensures var funs := ImageFunctions(k.funs, fm);
            && SameFunctions(k.funs, funs) && Texts(k.funs) == Texts(funs) && funs.Keys == k.funs.Keys
            && funs.Values <= fm.Values && Settled(ImageLine(k.line, sm), funs)
  {
    hide Holding; hide Closed; hide DirectFunction; hide ScopesCorrespond; hide VariablesCorrespond;
    var funs := ImageFunctions(k.funs, fm);
    forall n | n in funs
      ensures Text(funs[n]) == Text(k.funs[n]) && funs[n].scope == sm[k.line[|k.line| - 1]] && funs[n] in fm.Values
    {
      assert FunctionMirrors(k.funs[n], fm[k.funs[n]], sm);
    }
  }

  lemma CloneIsLine(line: seq<FlowScope>, s: FlowScope, around: nat, sm: map<FlowScope, FlowScope>)
    requires IsLine(line, s, around) && Elements(line) <= sm.Keys && ScopesCorrespond(sm)
    ensures IsLine(ImageLine(line, sm), sm[s], around)
    ensures Elements(ImageLine(line, sm)) <= sm.Values
  {
    var copy := ImageLine(line, sm);
    forall i | 0 <= i < |line| - 1 ensures copy[i].parent == copy[i + 1] {
      assert ParentMirrors(line[i], copy[i], sm);
    }
    assert ParentMirrors(line[|line| - 1], copy[|line| - 1], sm);
  }

  /** As far as `k` is still known. */
  ghost function Stopped(k: Track, problem: string): Track {
    if problem == "" then k else Untracked
  }

  /** What is known after a step that began with `k`: nothing more once a problem was found. */
  ghost predicate Follows(k2: Track, k: Track, problem: string) {
    && (k2.Tracked? <==> k.Tracked? && problem == "")
    && (k2.Tracked? ==> k2 == k.(vars := k2.vars))
  }

  /** What the specification says an expression delivers, if the scope is tracked. */
  ghost function Expected(cfg: Script, e: Expr, k: Track, flows: seq<Flow>): Outcome {
    if k.Tracked? && k.vars != [] then AbsExpr(cfg, e, Abs(k.vars, flows)) else Outcome([], Abs([], flows))
  }

  /** The kind of query parameters an expression delivers, if the scope is tracked. */
  ghost function ExpectedKind(cfg: Script, e: Expr, k: Track, flows: seq<Flow>): string {
    if k.Tracked? && k.vars != [] then AbsKind(cfg, e, Abs(k.vars, flows)) else ""
  }

  /** The function an expression names. */
  ghost function NamedFunction(e: Expr, k: Track): FlowFunction? {
    if k.Tracked? && e.Identifier? && e.name in k.funs then k.funs[e.name] else null
  }

  /** What expressions of the fragment call besides references: known functions, and query parameters. */
  ghost predicate Special(k: Track, e: Expr) {
    k.Tracked? && ((e.Identifier? && e.name in k.funs) || Parameters(k.Names(), e))
  }

  /** The analyzer delivered `v` and `flows` as specified. */
  ghost predicate Delivered(v: FlowValue, flows: seq<Flow>, k: Track, x: Outcome) {
    k.Tracked? ==> v == Plain(x.value) && flows == x.after.flows && k.vars == x.after.vars
  }

  /** The same, where the value may be a function or query parameters. */
  ghost predicate DeliveredAs(v: FlowValue, flows: seq<Flow>, k: Track, x: Outcome, kind: string, fn: FlowFunction?) {
    k.Tracked? ==> v == FlowValue(x.value, kind, fn) && flows == x.after.flows && k.vars == x.after.vars
  }

  /** An expression of the fragment delivers a plain value. */
  lemma DirectIsPlain(cfg: Script, e: Expr, k: Track, flows: seq<Flow>)
    requires Direct(k.Names(), e)
    ensures ExpectedKind(cfg, e, k, flows) == "" && NamedFunction(e, k) == null
  {
  }

  lemma ParentsAreWithin(r: Region)
    requires Closed(r)
    ensures ParentsWithin(r.scopes)
  {
    forall s | s in r.scopes && s.parent != null ensures s.parent in r.scopes {
      assert ParentIn(s, r);
    }
  }

  /** The analyzer delivered the values of a list, their join and `flows` as specified. */
  ghost predicate ListDelivered(values: seq<FlowValue>, joined: FlowValue, flows: seq<Flow>, k: Track, x: Outcomes) {
    && PlainArgs(values, x.values)
    && joined == Plain(JoinAll(x.values)) && flows == x.after.flows && k.Tracked? && k.vars == x.after.vars
  }

  lemma NothingDelivered(cfg: Script, a: Abs, k: Track)
    requires k.Tracked? && k.vars == a.vars != []
    ensures ListDelivered([], Nothing, a.flows, k, AbsList(cfg, [], a))
  {
  }

  lemma OneMoreDelivered(cfg: Script, es: seq<Expr>, a: Abs, i: nat, values: seq<FlowValue>, joined: FlowValue,
                         flows: seq<Flow>, k: Track, value: FlowValue, joined': FlowValue, flows': seq<Flow>, k': Track)
    requires i < |es| && a.vars != [] && k.Tracked? && k'.Tracked?
    requires ListDelivered(values, joined, flows, k, AbsList(cfg, es[..i], a))
    requires Delivered(value, flows', k', Expected(cfg, es[i], k, flows))
    requires joined == Plain(joined.sources) && value == Plain(value.sources) ==>
               joined' == Plain(Join(joined.sources, value.sources))
    ensures ListDelivered(values + [value], joined', flows', k', AbsList(cfg, es[..i + 1], a))
    ensures k'.vars != []
  {
    hide AbsExpr; hide AbsList; hide Join; hide JoinAll;
    AbsListNext(cfg, es, a, i);
    JoinAllNext(AbsList(cfg, es[..i], a).values, value.sources);
  }

  /** The analyzer delivered the last value of a list and `flows` as specified. */
  ghost predicate LastDelivered(v: FlowValue, flows: seq<Flow>, k: Track, x: Outcomes) {
    && v == Plain(if x.values == [] then [] else x.values[|x.values| - 1])
    && flows == x.after.flows && k.Tracked? && k.vars == x.after.vars != []
  }

  lemma LastOfNone(cfg: Script, a: Abs, k: Track)
    requires k.Tracked? && k.vars == a.vars != []
    ensures LastDelivered(Nothing, a.flows, k, AbsList(cfg, [], a))
  {
  }

  lemma OneMoreLast(cfg: Script, es: seq<Expr>, a: Abs, i: nat, v: FlowValue, flows: seq<Flow>, k: Track,
                    v': FlowValue, flows': seq<Flow>, k': Track)
    requires i < |es| && a.vars != [] && k.Tracked? && k'.Tracked?
    requires LastDelivered(v, flows, k, AbsList(cfg, es[..i], a))
    requires Delivered(v', flows', k', Expected(cfg, es[i], k, flows))
    ensures LastDelivered(v', flows', k', AbsList(cfg, es[..i + 1], a))
  {
    hide AbsExpr; hide AbsList;
    AbsListNext(cfg, es, a, i);
  }

  /** Two copies of the same scopes. */
  ghost predicate Together(kl: Track, kr: Track) {
    (kl.Tracked? <==> kr.Tracked?) && Twin(kl, kr) && (kl.Tracked? ==> kl.vars == kr.vars)
  }

  /** What the specification says a statement does and returns, if the scope is tracked. */
  ghost function ExpectedStmt(cfg: Script, st: Stmt, k: Track, flows: seq<Flow>): Outcome {
    if k.Tracked? && k.vars != [] then
      Outcome(AbsGiven(cfg, st, Abs(k.vars, flows)), AbsStmt(cfg, st, Abs(k.vars, flows)))
    else Outcome([], Abs([], flows))
  }

  /** The same for a list of statements. */
  ghost function ExpectedList(cfg: Script, list: seq<Stmt>, k: Track, flows: seq<Flow>): Outcome {
    if k.Tracked? && k.vars != [] then
      Outcome(AbsReturned(cfg, list, Abs(k.vars, flows)), AbsStmts(cfg, list, Abs(k.vars, flows)))
    else Outcome([], Abs([], flows))
  }

  lemma NoStatements(cfg: Script, list: seq<Stmt>, k: Track, flows: seq<Flow>)
    requires k.Tracked? && k.vars != []
    ensures ExpectedList(cfg, list[..0], k, flows) == Outcome([], Abs(k.vars, flows))
  {
  }

  /** The outermost scope before the first statement of a program of the fragment. */
  ghost predicate AtOutset(k: Track, list: seq<Stmt>) {
    && k.Tracked? && k.vars == [map[]] && k.funs == map[] && k.around == 0
    && DirectProgram(Declared(list).Keys, list)
  }

  lemma {:induction false} DeclaredAreDirect(known: set<string>, list: seq<Stmt>, name: string)
    requires DirectProgram(known, list) && name in Declared(list)
    ensures DirectFunction(known, Declared(list)[name])
  {
    hide DirectFunction; hide DirectStmt;
    var init, d := list[..|list| - 1], Declares(list[|list| - 1]);
    if !(d.Some? && d.value.0 == name) {
      DeclaredAreDirect(known, init, name);
    }
  }

  lemma NothingHoisted(k: Track, list: seq<Stmt>, funs: map<string, FlowFunction>)
    requires k.Tracked? && DirectStmts(k.Names(), list) && Texts(funs) == Declared(list)
    ensures funs == map[] && FunctionValues(funs) == map[]
    ensures forall i :: 0 <= i < |list| ==> DirectStmt(k.Names(), list[i])
    ensures AtOutset(k, list) ==> k == Tracked(k.line, Hoisted(EMPTY.vars, list), funs, 0)
  {
    hide DirectStmt; hide Declares; hide DirectProgram;
    NothingDeclared(list);
    assert funs.Keys == Texts(funs).Keys == {};
    assert EMPTY.vars[0] + (map n | n in Declared(list) :: []) == map[];
  }

  /** The outermost scope of a program, once its functions are declared. */
  lemma OutsetTrack(k: Track, s: FlowScope, r: Region, list: seq<Stmt>, funs: map<string, FlowFunction>)
    requires AtOutset(k, list) && IsLine(k.line, s, 0) && |k.line| == 1 && s in r.scopes
    requires funs.Values <= r.functions && forall n :: n in funs ==> funs[n].scope == s
    requires s.values == FunctionValues(funs) && Texts(funs) == Declared(list)
    ensures Tracks(Tracked(k.line, Hoisted(EMPTY.vars, list), funs, 0), s, r)
    ensures forall i :: 0 <= i < |list| ==> DirectStmt(funs.Keys, list[i])
  {
    hide DirectFunction; hide DirectStmt; hide Declares; hide Holding; hide Hoisted; hide FunctionValues;
    var vars := Hoisted(EMPTY.vars, list);
    FunctionsHeld(funs, list);
    assert k.line[0] == s && FunctionsOf(vars, funs, 0) == funs;
    assert Settled(k.line, funs) by {
      forall n | n in funs ensures DirectFunction(funs.Keys, Text(funs[n])) {
        DeclaredAreDirect(funs.Keys, list, n);
        assert Texts(funs)[n] == Text(funs[n]);
      }
    }
  }

  lemma OutsetIsEmpty(k: Track, s: FlowScope, r: Region, list: seq<Stmt>)
    requires Tracks(k, s, r) && AtOutset(k, list)
    ensures s.values == map[] && |k.line| == 1 && IsLine(k.line, s, 0)
  {
    assert k.line[0].values == Holding(map[], map[]) == map[];
  }

  /** The functions of a program and nothing else. */
  lemma FunctionsHeld(funs: map<string, FlowFunction>, list: seq<Stmt>)
    requires Texts(funs) == Declared(list)
    ensures funs.Keys == Declared(list).Keys && Unshadowed(Hoisted(EMPTY.vars, list), funs.Keys)
    ensures FunctionValues(funs) == Holding(Hoisted(EMPTY.vars, list)[0], funs)
  {
    assert Texts(funs).Keys == funs.Keys;
  }

  lemma NothingHeld()
    ensures Holding(map[], map[]) == map[]
  {
  }

  /** The setting of the statements of a whole program. */
  lemma ProgramSetting(k: Track, k1: Track, script: Script, list: seq<Stmt>)
    requires AtOutset(k, list) && k1.Tracked? && k1.around == 0 && Texts(k1.funs) == Declared(list)
    ensures k1.In(script, 0) == Declaring(Outset(script), list)
  {
    assert map[] + Declared(list) == Declared(list);
  }

  lemma AbsBindingsNone(cfg: Script, bs: seq<Binding>, level: nat, k: Track, flows: seq<Flow>)
    requires k.Tracked? ==> level < |k.vars|
    ensures k.Tracked? ==> AbsBindings(cfg, bs[..0], level, Abs(k.vars, flows)) == Abs(k.vars, flows)
  {
  }

  /** What is known about a new scope that binds `names` to plain values. */
  lemma NestedTrack(b: FlowScope, s: FlowScope, k: Track, r: Region, r1: Region, names: Vars) returns (kb: Track)
    requires Tracks(k, s, r) && b.parent == s && b.depth == s.depth + 1
    requires k.Tracked? ==> b.values == Holding(names, map[]) && names.Keys !! k.Names()
    requires r1 == Region(r.scopes + {b}, r.functions)
    ensures Tracks(kb, b, r1) && (kb.Tracked? <==> k.Tracked?)
    ensures k.Tracked? ==>
              kb == Tracked([b] + k.line, [names] + k.vars, k.funs, if b.isFunction then |k.line| else k.around)
  {
    hide Holding; hide DirectFunction; hide IsLine; hide Unshadowed;
    kb := Untracked;
    if k.Tracked? {
      kb := Tracked([b] + k.line, [names] + k.vars, k.funs, if b.isFunction then |k.line| else k.around);
      assert |k.line| == |k.vars| > 0;
      assert forall i :: 1 <= i < |kb.line| ==> kb.line[i] == k.line[i - 1];
      forall i | 0 <= i < |kb.line|
        ensures kb.line[i].values == Holding(kb.vars[i], FunctionsOf(kb.vars, kb.funs, i))
      {
        assert i > 0 ==> FunctionsOf(kb.vars, kb.funs, i) == FunctionsOf(k.vars, k.funs, i - 1);
      }
      LongerLine(b, s, k.line, k.around);
      StillUnshadowed(names, k.vars, k.Names());
    }
  }

  lemma LongerLine(b: FlowScope, s: FlowScope, line: seq<FlowScope>, around: nat)
    requires IsLine(line, s, around) && b.parent == s && b.depth == s.depth + 1
    ensures IsLine([b] + line, b, if b.isFunction then |line| else around)
  {
    assert forall i :: 1 <= i <= |line| ==> ([b] + line)[i] == line[i - 1];
  }

  lemma StillUnshadowed(names: Vars, vars: seq<Vars>, known: set<string>)
    requires Unshadowed(vars, known) && names.Keys !! known
    ensures Unshadowed([names] + vars, known)
  {
    assert ([names] + vars)[|vars|] == vars[|vars| - 1];
    assert forall i :: 1 <= i <= |vars| ==> ([names] + vars)[i] == vars[i - 1];
  }

  /** The outermost scope of a tracked chain, by itself, with the functions it holds. */
  lemma OutermostAlone(k: Track, s: FlowScope, r: Region, name: string) returns (q: Region, kf: Track)
    requires k.Tracked? && Closed(r) && Tracks(k, s, r) && name in k.funs
    ensures |k.line| == |k.vars| > 0 && q == Region({k.line[|k.line| - 1]}, k.funs.Values)
    ensures q.Within(r) && Closed(q) && k.funs[name] in q.functions && k.funs[name].scope == k.line[|k.line| - 1]
    ensures kf == Tracked([k.line[|k.line| - 1]], [k.vars[|k.line| - 1]], k.funs, 0)
    ensures Tracks(kf, k.line[|k.line| - 1], q) && DirectFunction(kf.Names(), Text(k.funs[name]))
  {
    hide DirectFunction;
    var last := |k.line| - 1;
    var p, vars := k.line[last], [k.vars[last]];
    q := Region({p}, k.funs.Values);
    kf := Tracked([p], vars, k.funs, 0);
    assert FunctionsOf(vars, k.funs, 0) == FunctionsOf(k.vars, k.funs, last) == k.funs;
    assert ParentIn(p, r);
    forall n | n in p.values ensures ValueIn(p.values[n], q) {
    }
  }

  /** What is known once a call of a known function is over: the outermost scope is what it has changed. */
  ghost function BackFrom(k: Track, kf: Track): Track {
    if k.Tracked? && kf.Tracked? && |k.vars| > 0 && |kf.vars| == 1
    then k.(vars := k.vars[|k.vars| - 1 := kf.vars[0]]) else Untracked
  }

  /** The chain without its outermost scope is as `k` says. */
  ghost predicate RestFits(k: Track, s: FlowScope)
    requires k.Tracked?
    reads k.line`parent, Elements(Inner(k.line)), k.Functions()
  {
    && |k.line| == |k.vars| && IsLine(k.line, s, k.around)
    && Unshadowed(k.vars, k.funs.Keys) && Settled(k.line, k.funs)
    && k.line[|k.line| - 1] !in Inner(k.line)
    && forall i :: 0 <= i < |k.line| - 1 ==> Inner(k.line)[i].values == Holding(k.vars[i], map[])
  }

  /** A chain without its outermost scope. */
  ghost function Inner(line: seq<FlowScope>): seq<FlowScope> {
    if line == [] then [] else line[..|line| - 1]
  }

  lemma RestOfTrack(k: Track, s: FlowScope, r: Region)
    requires k.Tracked? && Tracks(k, s, r)
    ensures RestFits(k, s) && k.line[|k.line| - 1] !in Elements(Inner(k.line))
  {
    hide DirectFunction; hide Holding;
    forall i | 0 <= i < |k.line| - 1
      ensures k.line[i] != k.line[|k.line| - 1] && Inner(k.line)[i].values == Holding(k.vars[i], map[])
    {
      assert FunctionsOf(k.vars, k.funs, i) == map[];
    }
  }

  lemma TracksBack(k: Track, s: FlowScope, r: Region, kf: Track, q: Region)
    requires k.Tracked? && RestFits(k, s) && k.Scopes() <= r.scopes && k.Functions() <= r.functions
    requires kf.Tracked? && kf.line == [k.line[|k.line| - 1]] && kf.funs == k.funs
    requires Tracks(kf, k.line[|k.line| - 1], q)
    ensures Tracks(BackFrom(k, kf), s, r) && BackFrom(k, kf) == k.(vars := BackFrom(k, kf).vars) && |kf.vars| == 1
  {
    hide DirectFunction; hide Holding;
    var last, k2 := |k.line| - 1, BackFrom(k, kf);
    assert |kf.vars| == 1 && k.line[last] == kf.line[0];
    forall i | 0 <= i < |k.line|
      ensures k.line[i].values == Holding(k2.vars[i], FunctionsOf(k2.vars, k.funs, i))
    {
      if i < last {
        assert k.line[i] == Inner(k.line)[i] && FunctionsOf(k2.vars, k.funs, i) == map[];
      } else {
        assert FunctionsOf(k2.vars, k.funs, i) == FunctionsOf(kf.vars, k.funs, 0);
      }
    }
    assert Unshadowed(kf.vars, k.funs.Keys);
  }

  /** Everything in the region outside `q` refers to nothing outside the region. */
  ghost predicate ClosedBeside(r: Region, q: Region)
    reads r.scopes - q.scopes, r.functions
  {
    && (forall x :: x in r.scopes - q.scopes ==> ParentIn(x, r))
    && (forall x, n :: x in r.scopes - q.scopes && n in x.values ==> ValueIn(x.values[n], r))
    && (forall f :: f in r.functions ==> f.scope != null && f.scope in r.scopes)
  }

  lemma ClosedParts(r: Region, q: Region)
    requires Closed(r)
    ensures ClosedBeside(r, q)
  {
  }

  /** A part of a region may be exchanged for a closed one. */
  lemma ClosedTogether(r: Region, q: Region, q2: Region)
    requires ClosedBeside(r, q) && q.Within(q2) && Closed(q2)
    ensures Closed(r.Union(q2))
  {
    var u := r.Union(q2);
    forall x | x in u.scopes
      ensures ParentIn(x, u)
      ensures forall n :: n in x.values ==> ValueIn(x.values[n], u)
    {
      if x in q2.scopes {
        assert ParentIn(x, q2);
      } else {
        assert x in r.scopes - q.scopes && ParentIn(x, r);
      }
    }
  }

  /** A call of a known function is one of a function that closes over the outermost scope. */
  lemma InvokeCase(k: Track, kf: Track, script: Script, calls: int, e: Expr, x: Outcomes)
    requires k.Tracked? && e.Call? && e.callee.Identifier? && e.callee.name in k.funs && calls < MAX_CALLS
    requires |k.vars| > 0 && x.after.vars == k.vars && kf.Tracked?
    requires kf == Tracked(kf.line, [k.vars[|k.vars| - 1]], k.funs, 0)
    ensures var cfg := k.In(script, calls);
            var y := AbsFunction(kf.In(script, calls), Text(k.funs[e.callee.name]), x.values,
                                 Abs(kf.vars, x.after.flows));
            && CallsDeclared(cfg, e)
            && AbsInvoke(cfg, e, x)
               == Outcome(y.value, Abs(k.vars[|k.vars| - 1 := y.after.vars[0]], y.after.flows))
  {
    hide AbsFunction;
    CalledAnywhere(k.In(script, calls), 0, Text(k.funs[e.callee.name]), x.values, Abs(kf.vars, x.after.flows));
  }

  /** A call depends on the functions and the calls left, not on where it stands. */
  lemma CalledAnywhere(cfg: Script, around: nat, f: Fn, values: seq<seq<Source>>, a: Abs)
    requires cfg.calls > 0
    ensures AbsFunction(cfg.(around := around), f, values, a) == AbsFunction(cfg, f, values, a)
  {
    hide AbsBody;
  }

  /** Where the script lies in the text is the same in every setting. */
  lemma SourceAnywhere(k: Track, script: Script, calls: int, at: Pos, kind: string, key: string)
    ensures SourceAt(k.In(script, calls), at, kind, key) == SourceAt(script, at, kind, key)
  {
  }

  class FlowAnalyzer {
    var flows: seq<Flow>
    var steps: int
    var depth: int
    var calls: int
    var problem: string
    const script: Script

    constructor (script: Script)
      ensures flows == [] && steps == 0 && depth == 0 && calls == 0 && problem == ""
      ensures this.script == script
    {
      flows, steps, depth, calls, problem := [], 0, 0, 0, "";
      this.script := script;
    }

    /** The ticks still allowed: what every recursion of the analyzer uses up. */
    ghost function Fuel(): nat
      reads this`steps
    {
      if steps > MAX_STEPS then 0 else MAX_STEPS + 1 - steps
    }

    /** Counts one unit of work; false once a limit is exceeded or a problem was found. */
    method Tick() returns (ok: bool)
      modifies this`steps, this`problem
      ensures steps == old(steps) + 1
      ensures ok ==> problem == old(problem) == "" && Fuel() < old(Fuel())
      ensures !ok ==> problem != ""
      ensures ok <==> old(problem) == "" && steps <= 10000 && depth <= 128 && calls <= 8
      ensures steps > 10000 || depth > 128 || calls > 8 ==> problem == "JavaScript data-flow work limit exceeded"
    {
      steps := steps + 1;
      if steps > MAX_STEPS || depth > MAX_DEPTH || calls > MAX_CALLS {
        problem := "JavaScript data-flow work limit exceeded";
        return false;
      }
      return problem == "";
    }

    // -------------------------------------------------------------------------------------------
    // Copying a scope graph
    // -------------------------------------------------------------------------------------------

    /** The tables only grow, and what they gain was allocated since. */
    twostate predicate Grown(memo: Memo)
      reads memo
    {
      && (forall s :: s in old(memo.scopes) ==> s in memo.scopes && memo.scopes[s] == old(memo.scopes)[s])
      && (forall f :: f in old(memo.functions) ==> f in memo.functions && memo.functions[f] == old(memo.functions)[f])
      && (forall s :: s in memo.scopes && s !in old(memo.scopes) ==> fresh(memo.scopes[s]))
      && (forall f :: f in memo.functions && f !in old(memo.functions) ==> fresh(memo.functions[f]))
    }

    method CopyScope(s: FlowScope, memo: Memo, ghost r: Region, ghost openS: set<FlowScope>,
                     ghost openF: set<FlowFunction>)
      returns (c: FlowScope)
      requires Closed(r) && s in r.scopes
      requires Copying(memo.scopes, memo.functions, r, openS, openF, problem == "")
      modifies this`steps, this`problem, memo
      ensures Copying(memo.scopes, memo.functions, r, openS, openF, problem == "")
      ensures Grown(memo) && s in memo.scopes && c == memo.scopes[s]
      ensures steps >= old(steps) && (old(problem) != "" ==> problem != "")
      decreases r.scopes - memo.scopes.Keys, 0
    {
      hide Copying; hide Closed; hide MapMirrors; hide ValueMirrors;
      if s in memo.scopes {
        return memo.scopes[s];
      }
      ghost var sm, fm := memo.scopes, memo.functions;
      OpenIsNotDone(sm, fm, r, openS, openF, problem == "");
      label Entry:
      var out := new FlowScope.Mirror(s);
      memo.scopes := memo.scopes[s := out];
      assert unchanged@Entry(r.scopes) && unchanged@Entry(r.functions);
      assert unchanged@Entry(Done(sm, openS)) && unchanged@Entry(Done(fm, openF));
      assert s in r.scopes - sm.Keys && s !in r.scopes - memo.scopes.Keys;
      OpenScope(sm, fm, r, openS, openF, problem == "", s, out);
      FillScope(s, out, memo, r, openS, openF);
      c := out;
    }

    method FillScope(s: FlowScope, out: FlowScope, memo: Memo, ghost r: Region, ghost openS: set<FlowScope>,
                     ghost openF: set<FlowFunction>)
      requires Closed(r) && s in r.scopes && s !in openS
      requires Copying(memo.scopes, memo.functions, r, openS + {s}, openF, problem == "")
      requires s in memo.scopes && out == memo.scopes[s] && out.values == map[] && out.parent == null
      modifies this`steps, this`problem, memo, out
      ensures Copying(memo.scopes, memo.functions, r, openS, openF, problem == "")
      ensures Grown(memo)
      ensures steps >= old(steps) && (old(problem) != "" ==> problem != "")
      decreases r.scopes - memo.scopes.Keys, 7
    {
      hide Copying; hide Closed; hide MapMirrors; hide ValueMirrors; hide ScopeMirrors;
      OpenIsNotDone(memo.scopes, memo.functions, r, openS + {s}, openF, problem == "");
      label Entry:
      FillParent(s, out, memo, r, openS, openF);
      assert unchanged@Entry(r.scopes) && unchanged@Entry(r.functions);
      NothingMirrored(s.values, memo.functions);
      ghost var missing := FillValues(s, out, memo, r, openS, openF);
      AllMirrored(s, out, memo.scopes, memo.functions, missing, problem == "");
      CloseScope(memo.scopes, memo.functions, r, openS, openF, problem == "", s);
    }

    method FillParent(s: FlowScope, out: FlowScope, memo: Memo, ghost r: Region, ghost openS: set<FlowScope>,
                      ghost openF: set<FlowFunction>)
      requires Closed(r) && s in r.scopes && s !in openS
      requires Copying(memo.scopes, memo.functions, r, openS + {s}, openF, problem == "")
      requires s in memo.scopes && out == memo.scopes[s] && out.values == map[] && out.parent == null
      modifies this`steps, this`problem, memo, out`parent
      ensures Copying(memo.scopes, memo.functions, r, openS + {s}, openF, problem == "")
      ensures Grown(memo) && ParentMirrors(s, out, memo.scopes)
      ensures steps >= old(steps) && (old(problem) != "" ==> problem != "")
      decreases r.scopes - memo.scopes.Keys, 3
    {
      hide Copying; hide MapMirrors; hide ValueMirrors;
      assert ParentIn(s, r);
      if s.parent != null {
        var p := CopyScope(s.parent, memo, r, openS + {s}, openF);
        ghost var sm, fm := memo.scopes, memo.functions;
        OpenIsNotDone(sm, fm, r, openS + {s}, openF, problem == "");
        label Copied:
        out.parent := p;
        assert unchanged@Copied(r.scopes) && unchanged@Copied(r.functions);
        assert unchanged@Copied(Done(sm, openS + {s})) && unchanged@Copied(Done(fm, openF));
      }
    }

    method FillValues(s: FlowScope, out: FlowScope, memo: Memo, ghost r: Region, ghost openS: set<FlowScope>,
                      ghost openF: set<FlowFunction>) returns (ghost missing: set<string>)
      requires Closed(r) && s in r.scopes && s !in openS
      requires Copying(memo.scopes, memo.functions, r, openS + {s}, openF, problem == "")
      requires s in memo.scopes && out == memo.scopes[s] && ParentMirrors(s, out, memo.scopes)
      requires MapMirrors(s.values, out.values, memo.functions, s.values.Keys)
      modifies this`steps, this`problem, memo, out`values
      ensures Copying(memo.scopes, memo.functions, r, openS + {s}, openF, problem == "")
      ensures Grown(memo) && ParentMirrors(s, out, memo.scopes)
      ensures MapMirrors(s.values, out.values, memo.functions, missing) && (problem == "" ==> missing == {})
      ensures steps >= old(steps) && (old(problem) != "" ==> problem != "")
      decreases r.scopes - memo.scopes.Keys, 6
    {
      hide Copying; hide Closed; hide ValueMirrors; hide MapMirrors;
      var todo := s.values.Keys;
      while todo != {}
        invariant todo <= s.values.Keys && Closed(r)
        invariant Copying(memo.scopes, memo.functions, r, openS + {s}, openF, problem == "")
        invariant Grown(memo) && s in memo.scopes && out == memo.scopes[s]
        invariant ParentMirrors(s, out, memo.scopes)
        invariant MapMirrors(s.values, out.values, memo.functions, todo)
        invariant steps >= old(steps) && (old(problem) != "" ==> problem != "")
        decreases todo
      {
        var name :| name in todo;
        var ok := FillNext(s, out, memo, r, openS, openF, name, todo);
        if !ok {
          break;
        }
        todo := todo - {name};
      }
      missing := todo;
    }

    /** One more variable, unless a limit is hit. */
    method FillNext(s: FlowScope, out: FlowScope, memo: Memo, ghost r: Region, ghost openS: set<FlowScope>,
                    ghost openF: set<FlowFunction>, name: string, ghost todo: set<string>) returns (ok: bool)
      requires Closed(r) && s in r.scopes && s !in openS && name in todo && name in s.values
      requires Copying(memo.scopes, memo.functions, r, openS + {s}, openF, problem == "")
      requires s in memo.scopes && out == memo.scopes[s] && ParentMirrors(s, out, memo.scopes)
      requires MapMirrors(s.values, out.values, memo.functions, todo)
      modifies this`steps, this`problem, memo, out`values
      ensures Copying(memo.scopes, memo.functions, r, openS + {s}, openF, problem == "")
      ensures Grown(memo) && ParentMirrors(s, out, memo.scopes)
      ensures MapMirrors(s.values, out.values, memo.functions, if ok then todo - {name} else todo)
              && (!ok ==> problem != "")
      ensures unchanged(r.scopes) && unchanged(r.functions)
      ensures steps >= old(steps) && (old(problem) != "" ==> problem != "")
      decreases r.scopes - memo.scopes.Keys, 5
    {
      hide Copying; hide Closed; hide ValueMirrors; hide MapMirrors;
      ok := TickCopying(memo, r, openS + {s}, openF);
      if ok {
        FillName(s, out, memo, r, openS, openF, name, todo);
      }
    }

    /** Tick, while a copy is in progress. */
    method TickCopying(memo: Memo, ghost r: Region, ghost openS: set<FlowScope>, ghost openF: set<FlowFunction>)
      returns (ok: bool)
      requires Copying(memo.scopes, memo.functions, r, openS, openF, problem == "")
      modifies this`steps, this`problem
      ensures Copying(memo.scopes, memo.functions, r, openS, openF, problem == "")
      ensures steps == old(steps) + 1 && (old(problem) != "" ==> problem != "") && (ok <==> problem == "")
      ensures unchanged(r.scopes) && unchanged(r.functions)
    {
      hide Copying;
      ghost var sm, fm := memo.scopes, memo.functions;
      LessComplete(sm, fm, r, openS, openF, problem == "", false);
      ok := Tick();
      assert unchanged(r.scopes) && unchanged(r.functions) && unchanged(Done(sm, openS)) && unchanged(Done(fm, openF));
    }

    method FillName(s: FlowScope, out: FlowScope, memo: Memo, ghost r: Region, ghost openS: set<FlowScope>,
                    ghost openF: set<FlowFunction>, name: string, ghost todo: set<string>)
      requires Closed(r) && s in r.scopes && s !in openS && name in todo && name in s.values
      requires Copying(memo.scopes, memo.functions, r, openS + {s}, openF, problem == "")
      requires s in memo.scopes && out == memo.scopes[s] && ParentMirrors(s, out, memo.scopes)
      requires MapMirrors(s.values, out.values, memo.functions, todo)
      modifies this`steps, this`problem, memo, out`values
      ensures Copying(memo.scopes, memo.functions, r, openS + {s}, openF, problem == "")
      ensures Grown(memo) && ParentMirrors(s, out, memo.scopes)
      ensures MapMirrors(s.values, out.values, memo.functions, todo - {name})
      ensures unchanged(r.scopes) && unchanged(r.functions)
      ensures steps >= old(steps) && (old(problem) != "" ==> problem != "")
      decreases r.scopes - memo.scopes.Keys, 4
    {
      hide Copying; hide MapMirrors; hide ValueMirrors;
      ghost var sm0, fm0 := memo.scopes, memo.functions;
      OpenIsNotDone(sm0, fm0, r, openS + {s}, openF, problem == "");
      var v := CopyValue(s.values[name], memo, r, openS + {s}, openF);
      ghost var sm, fm := memo.scopes, memo.functions;
      OpenIsNotDone(sm, fm, r, openS + {s}, openF, problem == "");
      AddMirror(s.values, out.values, fm0, fm, todo, name, v);
      label Copied:
      out.values := out.values[name := v];
      assert unchanged@Copied(r.scopes) && unchanged@Copied(r.functions);
      assert unchanged@Copied(Done(sm, openS + {s})) && unchanged@Copied(Done(fm, openF));
    }

    method CopyValue(v: FlowValue, memo: Memo, ghost r: Region, ghost openS: set<FlowScope>,
                     ghost openF: set<FlowFunction>)
      returns (w: FlowValue)
      requires Closed(r) && ValueIn(v, r)
      requires Copying(memo.scopes, memo.functions, r, openS, openF, problem == "")
      modifies this`steps, this`problem, memo
      ensures Copying(memo.scopes, memo.functions, r, openS, openF, problem == "")
      ensures Grown(memo) && ValueMirrors(v, w, memo.functions)
      ensures steps >= old(steps) && (old(problem) != "" ==> problem != "")
      decreases r.scopes - memo.scopes.Keys, 3
    {
      hide Copying;
      var f := v.fn;
      if f == null {
        return v;
      }
      if f in memo.functions {
        return v.(fn := memo.functions[f]);
      }
      var g := CopyFunction(f, memo, r, openS, openF);
      w := v.(fn := g);
    }

    method CopyFunction(f: FlowFunction, memo: Memo, ghost r: Region, ghost openS: set<FlowScope>,
                        ghost openF: set<FlowFunction>)
      returns (g: FlowFunction)
      requires Closed(r) && f in r.functions && f !in memo.functions
      requires Copying(memo.scopes, memo.functions, r, openS, openF, problem == "")
      modifies this`steps, this`problem, memo
      ensures Copying(memo.scopes, memo.functions, r, openS, openF, problem == "")
      ensures Grown(memo) && f in memo.functions && memo.functions[f] == g
      ensures steps >= old(steps) && (old(problem) != "" ==> problem != "")
      decreases r.scopes - memo.scopes.Keys, 2
    {
      hide Copying;
      OpenIsNotDone(memo.scopes, memo.functions, r, openS, openF, problem == "");
      var around := f.scope;
      g := NewClone(f, memo, r, openS, openF);
      assert unchanged(r.scopes) && unchanged(r.functions);
      FillFunction(f, g, around, memo, r, openS, openF);
    }

    method FillFunction(f: FlowFunction, g: FlowFunction, around: FlowScope, memo: Memo, ghost r: Region,
                        ghost openS: set<FlowScope>, ghost openF: set<FlowFunction>)
      requires Closed(r) && f in r.functions && f !in openF && f.scope == around && around in r.scopes
      requires Copying(memo.scopes, memo.functions, r, openS, openF + {f}, problem == "")
      requires f in memo.functions && memo.functions[f] == g
      modifies this`steps, this`problem, memo, g`scope
      ensures Copying(memo.scopes, memo.functions, r, openS, openF, problem == "")
      ensures Grown(memo)
      ensures steps >= old(steps) && (old(problem) != "" ==> problem != "")
      decreases r.scopes - memo.scopes.Keys, 1
    {
      hide Copying; hide Closed;
      OpenIsNotDone(memo.scopes, memo.functions, r, openS, openF + {f}, problem == "");
      var c := CopyScope(around, memo, r, openS, openF + {f});
      ghost var sm, fm := memo.scopes, memo.functions;
      OpenIsNotDone(sm, fm, r, openS, openF + {f}, problem == "");
      label Copied:
      g.scope := c;
      assert unchanged@Copied(r.scopes) && unchanged@Copied(r.functions);
      assert unchanged@Copied(Done(sm, openS)) && unchanged@Copied(Done(fm, openF + {f}));
      CloseFunction(sm, fm, r, openS, openF, problem == "", f);
    }

    /** The copy of a function, entered in the table before the scope it closes over is copied. */
    method NewClone(f: FlowFunction, memo: Memo, ghost r: Region, ghost openS: set<FlowScope>,
                    ghost openF: set<FlowFunction>)
      returns (clone: FlowFunction)
      requires Copying(memo.scopes, memo.functions, r, openS, openF, problem == "")
      requires f in r.functions && f !in memo.functions
      modifies memo`functions
      ensures Copying(memo.scopes, memo.functions, r, openS, openF + {f}, problem == "")
      ensures fresh(clone) && memo.functions == old(memo.functions)[f := clone]
    {
      hide Copying;
      ghost var sm, fm := memo.scopes, memo.functions;
      clone := new FlowFunction.Copy(f);
      memo.functions := memo.functions[f := clone];
      assert unchanged(r.scopes) && unchanged(r.functions) && unchanged(Done(sm, openS)) && unchanged(Done(fm, openF));
      OpenFunction(sm, fm, r, openS, openF, problem == "", f, clone);
    }

    /**
     * Copies everything `s` refers to: parents, the functions held in variables and the scopes they
     * close over, round all cycles. The copy is new and closed, nothing old is changed, and unless
     * a work limit is hit it is isomorphic to the closed graph `sm.Keys`, `fm.Keys` it was made from.
     */
    method CloneScope(s: FlowScope, ghost r: Region)
      returns (c: FlowScope, ghost sm: map<FlowScope, FlowScope>, ghost fm: map<FlowFunction, FlowFunction>)
      requires Closed(r) && s in r.scopes
      modifies this`steps, this`problem
      ensures s in sm && c == sm[s] && sm.Keys <= r.scopes && fm.Keys <= r.functions
      ensures fresh(sm.Values) && fresh(fm.Values)
      ensures Closed(Image(sm, fm))
      ensures Copying(sm, fm, r, {}, {}, problem == "")
      ensures problem == "" ==> Isomorphism(sm, fm)
      ensures steps >= old(steps) && (old(problem) != "" ==> problem != "")
    {
      hide Copying; hide Isomorphism;
      var memo := new Memo();
      NothingCopied(r, problem == "");
      assert Copying(memo.scopes, memo.functions, r, {}, {}, problem == "");
      c := CopyScope(s, memo, r, {}, {});
      sm, fm := memo.scopes, memo.functions;
      assert unchanged(r.scopes) && unchanged(r.functions);
      CopyIsClosed(sm, fm, r, problem == "");
      if problem == "" {
        CopyIsIsomorphic(sm, fm, r);
      }
    }

    // -------------------------------------------------------------------------------------------
    // Variables, values and sinks
    // -------------------------------------------------------------------------------------------

    /** The innermost binding of a name. */
    method Find(s: FlowScope, name: string, ghost r: Region, ghost k: Track) returns (v: Option<FlowValue>)
      requires Closed(r) && s in r.scopes && Tracks(k, s, r)
      ensures v.Some? ==> ValueIn(v.value, r)
      ensures var b := BinderOf(s, name, r); v == if b == null then None else Some(b.values[name])
      ensures k.Tracked? ==> (v.Some? <==> name in Bound(k.vars))
      ensures k.Tracked? && v.Some? ==>
        v.value == FlowValue(Lookup(k.vars, name), "", if name in k.funs then k.funs[name] else null)
      ensures k.Tracked? && v.None? ==> Lookup(k.vars, name) == [] && name !in k.funs
    {
      hide Closed; hide Tracks; hide BinderOf; hide Lookup; hide FunctionsOf;
      TracksHere(k, s, r);
      var p: FlowScope? := s;
      ghost var i := 0;
      while p != null
        invariant p != null ==> p in r.scopes
        invariant BinderOf(s, name, r) == BinderOf(p, name, r)
        invariant k.Tracked? ==> 0 <= i <= |k.line| && p == (if i < |k.line| then k.line[i] else null)
        invariant k.Tracked? ==> forall j :: 0 <= j < i ==> name !in k.vars[j]
        decreases if p == null then 0 else p.depth + 1
      {
        BinderNext(p, name, r);
        if k.Tracked? {
          TableAt(k, s, r, i);
          HoldingKeys(k.vars[i], FunctionsOf(k.vars, k.funs, i));
        }
        if name in p.values {
          if k.Tracked? {
            LookupAt(k.vars, name, i);
            FunctionsAreOutermost(k, s, r, name, i);
            HeldAt(k, name, i);
          }
          ValuesOf(p, name, r);
          return Some(p.values[name]);
        }
        p := p.parent;
        i := i + 1;
      }
      NoBinder(name, r);
      if k.Tracked? {
        LookupAt(k.vars, name, |k.vars|);
        FunctionsAreOutermost(k, s, r, name, |k.vars|);
      }
      return None;
    }

    lemma ValuesOf(p: FlowScope, name: string, r: Region)
      requires Closed(r) && p in r.scopes && name in p.values
      ensures ValueIn(p.values[name], r)
    {
    }

    /** Assigns to the innermost binding, or binds the name in `s` itself. */
    method Assign(s: FlowScope, name: string, v: FlowValue, ghost r: Region, ghost k: Track)
      requires Closed(r) && s in r.scopes && Tracks(k, s, r) && ValueIn(v, r)
      requires k.Tracked? ==> v == Plain(v.sources) && name !in k.Names()
      modifies r.scopes`values
      ensures Closed(r)
      ensures var b := old(BinderOf(s, name, r));
              var target := if b == null then s else b;
              && target.values == old(target.values)[name := v]
              && forall q :: q in r.scopes && q != target ==> q.values == old(q.values)
      ensures k.Tracked? ==> Tracks(k.(vars := AssignTo(k.vars, name, v.sources)), s, r)
    {
      hide Closed; hide BinderOf; hide Holding;
      var p: FlowScope? := s;
      ghost var i := 0;
      while p != null
        invariant Closed(r) && unchanged(r.scopes) && (p != null ==> p in r.scopes)
        invariant BinderOf(s, name, r) == BinderOf(p, name, r)
        invariant k.Tracked? ==> 0 <= i <= |k.line| && p == (if i < |k.line| then k.line[i] else null)
        invariant k.Tracked? ==> forall j :: 0 <= j < i ==> name !in k.vars[j]
        decreases if p == null then 0 else p.depth + 1
      {
        BinderNext(p, name, r);
        if k.Tracked? {
          HoldingKeys(k.vars[i], FunctionsOf(k.vars, k.funs, i));
        }
        if name in p.values {
          if k.Tracked? {
            UpdateAt(k.vars, name, v.sources, i);
          }
          Bind(p, name, v, r, k, s, i);
          return;
        }
        p := p.parent;
        i := i + 1;
      }
      NoBinder(name, r);
      Bind(s, name, v, r, k, s, 0);
    }

    /** Sets one variable of one scope. */
    method Bind(p: FlowScope, name: string, v: FlowValue, ghost r: Region, ghost k: Track, ghost s: FlowScope,
                ghost i: nat)
      requires Closed(r) && p in r.scopes && Tracks(k, s, r) && ValueIn(v, r)
      requires k.Tracked? ==> v == Plain(v.sources) && i < |k.line| && p == k.line[i] && name !in k.Names()
      modifies p`values
      ensures Closed(r) && p.values == old(p.values)[name := v]
      ensures k.Tracked? ==> Tracks(k.(vars := k.vars[i := k.vars[i][name := v.sources]]), s, r)
    {
      hide Closed; hide Holding; hide IsLine; hide Settled;
      if k.Tracked? {
        LineDepths(k.line, s, k.around);
        HoldingUpdate(k.vars[i], FunctionsOf(k.vars, k.funs, i), name, v.sources);
      }
      SetValue(p, name, v, r);
      if k.Tracked? {
        ghost var vars := k.vars[i := k.vars[i][name := v.sources]];
        assert forall j :: 0 <= j < |vars| ==> FunctionsOf(vars, k.funs, j) == FunctionsOf(k.vars, k.funs, j);
      }
    }

    /** What a variable may hold after either of two values. */
    method JoinValues(left: FlowValue, right: FlowValue) returns (out: FlowValue)
      modifies this`problem
      ensures old(problem) != "" ==> problem != ""
      ensures problem == "" ==> !Clash(left, right) && out == JoinedValue(left, right)
      ensures |left.sources| <= 8 ==>
        (problem == if |Join(left.sources, right.sources)| > 8 then "JavaScript data-flow source limit exceeded"
                    else if Clash(left, right)
                        then "JavaScript data-flow alternative function bodies require runtime analysis"
                    else old(problem))
      ensures out.fn == (if Clash(left, right) then null else if left.fn == null then right.fn else left.fn)
      ensures left.params == right.params ==> out.params == left.params
      ensures problem == "" && left == Plain(left.sources) && right == Plain(right.sources) ==>
        out == Plain(Join(left.sources, right.sources))
    {
      var fn := if left.fn == null then right.fn else left.fn;
      if left.fn != null && right.fn != null && left.fn != right.fn {
        problem := ALTERNATIVES;
        fn := null;
      }
      var sources := JoinSources(left.sources, right.sources);
      out := FlowValue(sources, if left.params == right.params then left.params else "", fn);
    }

    method JoinSources(left: seq<Source>, right: seq<Source>) returns (sources: seq<Source>)
      modifies this`problem
      ensures old(problem) != "" ==> problem != ""
      ensures problem == "" ==> sources == Join(left, right)
      ensures |left| <= 8 ==>
        (problem == if |Join(left, right)| > 8 then "JavaScript data-flow source limit exceeded" else old(problem))
    {
      hide Join;
      sources := left;
      var i := 0;
      JoinNone(left);
      assert right[..0] == [];
      while i < |right|
        invariant 0 <= i <= |right|
        invariant sources == Join(left, right[..i]) && problem == old(problem)
        invariant |left| <= MAX_SOURCES ==> |sources| <= MAX_SOURCES
      {
        JoinNext(left, right, i);
        if right[i] !in sources {
          if |sources| == MAX_SOURCES {
            JoinGrows(left, right, i + 1);
            problem := SOURCE_LIMIT;
            break;
          }
          sources := sources + [right[i]];
        }
        i := i + 1;
      }
      assert right[..|right|] == right;
    }

    /** The value of a node that reads an input, unless it lies outside the script or the key is too long. */
    method SourceValue(at: Pos, kind: string, key: string) returns (v: FlowValue)
      ensures v == Plain(SourceAt(script, at, kind, key))
    {
      var start, end := at.start - script.shift, at.end - script.shift;
      if start < 0 || end > script.length || start >= end || |key| > 128 {
        return Nothing;
      }
      return FlowValue([Source(kind, key, start, end)], "", null);
    }

    /** The kind of input that a global path names. */
    method InputKind(path: string) returns (kind: Option<string>)
      ensures kind == SourceKind(path)
    {
      if path == "location.hash" || path == "window.location.hash" || path == "document.location.hash" {
        return Some("fragment");
      }
      if path == "location.search" || path == "window.location.search" || path == "document.location.search" {
        return Some("query");
      }
      if path == "window.name" {
        return Some("window.name");
      }
      return if path == "document.referrer" then Some("referrer") else None;
    }

    /** Does a global path name a function all of whose arguments reach a sink? */
    method IsSink(path: string) returns (sink: bool)
      ensures sink <==> SinkFunction(path)
    {
      return path == "eval" || path == "window.eval" || path == "Function" || path == "window.Function"
          || path == "document.write" || path == "document.writeln";
    }

    /** Does a global path name a timer, whose first argument reaches a sink? */
    method IsTimer(path: string) returns (timer: bool)
      ensures timer <==> TimerFunction(path)
    {
      return path == "setTimeout" || path == "setInterval" || path == "window.setTimeout"
          || path == "window.setInterval";
    }

    /** The storage object that a global path names, with or without `window.`. */
    method StorageName(path: string) returns (storage: Option<string>)
      ensures storage == if StorageObject(TrimWindow(path)) then Some(TrimWindow(path)) else None
    {
      var name := path;
      if "window." <= name {
        name := name[7..];
      }
      return if name == "localStorage" || name == "sessionStorage" then Some(name) else None;
    }

    /** The first of a list of expressions, when it is a string literal. */
    method FirstLiteral(es: seq<Expr>) returns (key: Option<string>)
      ensures key == LiteralKey(es)
    {
      return if |es| > 0 && es[0].StringLiteral? then Some(es[0].text) else None;
    }

    /** Records that the sources of a value may reach a sink. */
    method Sink(at: Pos, name: string, value: FlowValue)
      requires |flows| <= MAX_FLOWS
      modifies this`flows, this`problem
      ensures |flows| <= MAX_FLOWS && old(flows) <= flows
      ensures old(problem) != "" ==> problem != ""
      ensures problem == "" ==> flows == Record(script, old(flows), at, name, value.sources)
      ensures problem == if |Record(script, old(flows), at, name, value.sources)| > 64
              then "JavaScript data-flow result limit exceeded" else old(problem)
    {
      hide Record;
      RecordNone(script, flows, at, name);
      assert value.sources[..0] == [];
      var i := 0;
      while i < |value.sources|
        invariant 0 <= i <= |value.sources|
        invariant flows == Record(script, old(flows), at, name, value.sources[..i]) && old(flows) <= flows
        invariant |flows| <= MAX_FLOWS && problem == old(problem)
      {
        RecordNext(script, old(flows), at, name, value.sources, i);
        var f := Flow(value.sources[i], name, at.start - script.shift, at.end - script.shift);
        if f.start >= 0 && f.end <= script.length && f !in flows {
          if |flows| == MAX_FLOWS {
            RecordGrows(script, old(flows), at, name, value.sources, i + 1);
            problem := RESULT_LIMIT;
            return;
          }
          flows := flows + [f];
        }
        i := i + 1;
      }
      assert value.sources[..|value.sources|] == value.sources;
    }

    /** The dotted path of an access chain whose root is not bound in the scopes around it. */
    method PathOf(e: Expr, s: FlowScope, depth: nat, ghost r: Region, ghost k: Track) returns (path: string)
      requires Closed(r) && s in r.scopes && Tracks(k, s, r)
      ensures path == GlobalPath(e, NamesFrom(s, r), depth)
      ensures k.Tracked? ==> path == GlobalPath(e, Bound(k.vars), depth)
      decreases e
    {
      hide Closed; hide NamesFrom; hide BinderOf;
      if depth > 16 {
        return "";
      }
      if e.Identifier? {
        var v := Find(s, e.name, r, k);
        BoundNamesHaveBinders(s, e.name, r);
        return if v.Some? then "" else e.name;
      }
      var m := Member(e);
      if m.None? {
        return "";
      }
      var prefix := PathOf(m.value.0, s, depth + 1, r, k);
      return if prefix == "" then "" else prefix + "." + m.value.1;
    }

    // -------------------------------------------------------------------------------------------
    // Merging the scopes of two branches
    // -------------------------------------------------------------------------------------------

    /** Sets one variable and keeps the region closed. */
    method SetValue(p: FlowScope, name: string, v: FlowValue, ghost u: Region)
      requires Closed(u) && p in u.scopes && ValueIn(v, u)
      modifies p`values
      ensures Closed(u) && p.values == old(p.values)[name := v]
    {
      p.values := p.values[name := v];
      assert forall q :: q in u.scopes ==> old(ParentIn(q, u));
    }

    /** The value of one name after both branches. */
    method MergedValue(out: FlowScope, name: string, value: FlowValue, other: FlowValue, ghost u: Region)
      returns (merged: FlowValue)
      requires Closed(u) && out in u.scopes && ValueIn(value, u) && ValueIn(other, u)
      modifies this`problem
      ensures ValueIn(merged, u) && (old(problem) != "" ==> problem != "")
      ensures problem == "" ==> merged == AfterBoth(FunctionAt(out.values, name), value, other)
    {
      hide Join;
      var f := if name in out.values then out.values[name].fn else null;
      if f != null && value.fn != null && other.fn != null && f.Identity() == value.fn.Identity()
        && f.Identity() == other.fn.Identity()
      {
        merged := JoinValues(value.(fn := null), other.(fn := null));
        merged := merged.(fn := f);
      } else {
        merged := JoinValues(value, other);
      }
    }

    /** First half of a merge: every variable of the left branch. */
    method MergeLeft(out: FlowScope, left: FlowScope, right: FlowScope, ghost u: Region)
      requires Closed(u) && out in u.scopes && left in u.scopes && right in u.scopes && right != out
      modifies this`steps, this`problem, out`values
      ensures Closed(u) && steps >= old(steps) && (old(problem) != "" ==> problem != "")
      ensures left.values.Keys == old(left.values.Keys)
      ensures problem == "" ==>
              out.values == LeftMerged(old(out.values), old(left.values), right.values, old(left.values.Keys))
    {
      hide Closed; hide LeftMerged;
      ghost var o, l, rt := out.values, left.values, right.values;
      var todo := left.values.Keys;
      NothingMerged(o, l, rt);
      assert l.Keys - todo == {};
      while todo != {}
        invariant Closed(u) && steps >= old(steps) && (old(problem) != "" ==> problem != "")
        invariant todo <= l.Keys == left.values.Keys
        invariant forall n :: n in todo ==> left.values[n] == l[n]
        invariant problem == "" ==> out.values == LeftMerged(o, l, rt, l.Keys - todo)
        decreases todo
      {
        var ok := Tick();
        if !ok {
          return;
        }
        var name :| name in todo;
        assert l.Keys - (todo - {name}) == (l.Keys - todo) + {name};
        MergeName(out, left, right, name, u, o, l, l.Keys - todo);
        todo := todo - {name};
      }
      assert l.Keys - todo == l.Keys;
    }

    /** One variable of the left branch. */
    method MergeName(out: FlowScope, left: FlowScope, right: FlowScope, name: string, ghost u: Region,
                     ghost o: map<string, FlowValue>, ghost l: map<string, FlowValue>, ghost done: set<string>)
      requires Closed(u) && out in u.scopes && left in u.scopes && right in u.scopes && right != out
      requires name in left.values && name in l && left.values[name] == l[name] && done <= l.Keys && name !in done
      requires problem == "" ==> out.values == LeftMerged(o, l, right.values, done)
      modifies this`problem, out`values
      ensures Closed(u) && (old(problem) != "" ==> problem != "")
      ensures name in out.values && out.values == old(out.values)[name := out.values[name]]
      ensures problem == "" ==> out.values == LeftMerged(o, l, right.values, done + {name})
    {
      hide Closed; hide LeftMerged; hide AfterBoth; hide FunctionAt;
      var other := if name in right.values then right.values[name] else Nothing;
      ValuesIn(left, right, name, u);
      LeftMergedStep(o, l, right.values, done, name);
      var merged := MergedValue(out, name, left.values[name], other, u);
      SetValue(out, name, merged, u);
    }

    /** Second half: the variables only the right branch has. */
    method MergeRight(out: FlowScope, left: FlowScope, right: FlowScope, ghost u: Region)
      requires Closed(u) && out in u.scopes && left in u.scopes && right in u.scopes && right != out
      modifies this`steps, this`problem, out`values
      ensures Closed(u) && steps >= old(steps) && (old(problem) != "" ==> problem != "")
      ensures problem == "" ==>
              out.values == RightMerged(old(out.values), old(left.values.Keys), right.values, right.values.Keys)
    {
      hide Closed; hide RightMerged;
      ghost var m, before, rt := out.values, left.values.Keys, right.values;
      var todo := right.values.Keys;
      NothingMerged(m, left.values, rt);
      assert rt.Keys - todo == {};
      while todo != {}
        invariant Closed(u) && steps >= old(steps) && (old(problem) != "" ==> problem != "")
        invariant todo <= rt.Keys
        invariant forall n :: n in todo ==> (n in left.values <==> n in before)
        invariant problem == "" ==> out.values == RightMerged(m, before, rt, rt.Keys - todo)
        decreases todo
      {
        var ok := Tick();
        if !ok {
          return;
        }
        var name :| name in todo;
        ValuesIn(left, right, name, u);
        RightMergedStep(m, before, rt, rt.Keys - todo, name);
        assert rt.Keys - (todo - {name}) == (rt.Keys - todo) + {name};
        if name !in left.values {
          SetValue(out, name, right.values[name], u);
        }
        todo := todo - {name};
      }
      assert rt.Keys - todo == rt.Keys;
    }

    lemma ValuesIn(left: FlowScope, right: FlowScope, name: string, u: Region)
      requires Closed(u) && left in u.scopes && right in u.scopes
      ensures name in left.values ==> ValueIn(left.values[name], u)
      ensures ValueIn(ValueAt(right.values, name), u)
    {
    }

    /** Both halves of a merge of one scope. */
    method MergeOne(out: FlowScope, left: FlowScope, right: FlowScope, ghost u: Region)
      requires Closed(u) && out in u.scopes && left in u.scopes && right in u.scopes && right != out
      modifies this`steps, this`problem, out`values
      ensures Closed(u) && steps >= old(steps) && (old(problem) != "" ==> problem != "")
      ensures problem == "" ==> out.values == MergedValues(old(out.values), old(left.values), old(right.values))
    {
      hide Closed; hide MergedValues; hide LeftMerged; hide RightMerged;
      MergedAll(out.values, left.values, right.values);
      MergeLeft(out, left, right, u);
      MergeRight(out, left, right, u);
    }

    /**
     * Takes what two branches did to their copies of a scope, and of all scopes around it, back into
     * the original; the left branch may be the original itself.
     */
    method MergeScopes(out: FlowScope, left: FlowScope, right: FlowScope, ghost u: Region,
                       ghost outs: set<FlowScope>, ghost others: set<FlowScope>,
                       ghost lo: seq<FlowScope>, ghost ll: seq<FlowScope>, ghost lr: seq<FlowScope>)
      requires Closed(u) && outs !! others && outs + others <= u.scopes && ParentsWithin(outs) && ParentsWithin(others)
      requires out in outs && (left == out || left in others) && right in others
      requires out.depth == left.depth == right.depth
      requires IsChain(lo, out) && IsChain(ll, left) && IsChain(lr, right)
      modifies this`steps, this`problem, outs`values
      ensures Closed(u) && steps >= old(steps) && (old(problem) != "" ==> problem != "")
      ensures forall s :: s in outs && s !in lo ==> s.values == old(s.values)
      ensures problem == "" ==>
        ValuesAlong(lo) == MergedChain(old(ValuesAlong(lo)), old(ValuesAlong(ll)), old(ValuesAlong(lr)))
      decreases out.depth
    {
      hide Closed; hide IsChain; hide MergedValues; hide MergedChain; hide ValuesAlong;
      ParentsOf(out, u); ParentsOf(left, u); ParentsOf(right, u);
      ChainParts(lo, out); ChainParts(ll, left); ChainParts(lr, right);
      MergedChainOuter(out.values, left.values, right.values, ValuesAlong(lo[1..]), ValuesAlong(ll[1..]),
                       ValuesAlong(lr[1..]));
      MergeOne(out, left, right, u);
      assert unchanged(lo[1..]) && unchanged(ll[1..]) && unchanged(lr[1..]);
      if out.parent != null {
        MergeScopes(out.parent, left.parent, right.parent, u, outs, others, lo[1..], ll[1..], lr[1..]);
      } else {
        NothingAround();
      }
      ChainParts(lo, out);
    }

    // -------------------------------------------------------------------------------------------
    // Expressions
    // -------------------------------------------------------------------------------------------

    /** What every step keeps: the region only grows by new objects, and all counters but `steps` are restored. */
    twostate predicate Kept(r: Region, new r2: Region)
      reads this
    {
      && r.Within(r2) && fresh(r2.scopes - r.scopes) && fresh(r2.functions - r.functions)
      && steps >= old(steps) && depth == old(depth) && calls == old(calls)
      && |flows| <= MAX_FLOWS && old(flows) <= flows
      && (old(problem) != "" ==> problem != "")
    }

    lemma AbsentExpr(k: Track, flows: seq<Flow>, calls: int)
      requires k.Tracked? ==> k.vars != []
      ensures DeliveredAs(Nothing, flows, k, Expected(k.In(script, calls), NoExpr, k, flows),
                          ExpectedKind(k.In(script, calls), NoExpr, k, flows), NamedFunction(NoExpr, k))
    {
    }

    /** What is delivered as specified is plain for an expression of the fragment. */
    lemma PlainDelivery(v: FlowValue, flows: seq<Flow>, k2: Track, cfg: Script, e: Expr, k: Track, before: seq<Flow>)
      requires DeliveredAs(v, flows, k2, Expected(cfg, e, k, before), ExpectedKind(cfg, e, k, before),
                           NamedFunction(e, k))
      ensures Direct(k.Names(), e) ==> Delivered(v, flows, k2, Expected(cfg, e, k, before))
    {
      hide AbsExpr; hide ExpectedKind; hide NamedFunction; hide Direct;
      if Direct(k.Names(), e) {
        DirectIsPlain(cfg, e, k, before);
      }
    }

    method Expression(e: Expr, s: FlowScope, ghost r: Region, ghost k: Track)
      returns (v: FlowValue, ghost r2: Region, ghost k2: Track)
      requires Closed(r) && s in r.scopes && Tracks(k, s, r) && |flows| <= MAX_FLOWS
      requires k.Tracked? ==> Direct(k.Names(), e) || Special(k, e)
      modifies this`flows, this`steps, this`depth, this`calls, this`problem, r.scopes`values
      ensures Kept(r, r2) && Closed(r2) && ValueIn(v, r2) && Tracks(k2, s, r2) && Follows(k2, k, problem)
      ensures DeliveredAs(v, flows, k2, Expected(k.In(script, calls), e, k, old(flows)),
                          ExpectedKind(k.In(script, calls), e, k, old(flows)), NamedFunction(e, k))
      ensures Direct(k.Names(), e) ==> Delivered(v, flows, k2, Expected(k.In(script, calls), e, k, old(flows)))
      decreases Fuel(), 0
    {
      hide Closed; hide Tracks; hide AbsExpr; hide Direct; hide Special; hide Expected; hide Delivered;
      hide ExpectedKind; hide NamedFunction;
      NothingKnown(s, r);
      TracksHere(k, s, r);
      v, r2, k2 := Nothing, r, Stopped(k, problem);
      if e.NoExpr? {
        AbsentExpr(k, flows, calls);
      } else {
        var ok := Tick();
        k2 := Untracked;
        if ok {
          depth := depth + 1;
          v, r2, k2 := Evaluate(e, s, r, k);
          depth := depth - 1;
        }
      }
      PlainDelivery(v, flows, k2, k.In(script, calls), e, k, old(flows));
    }

    /** What to do with an expression that is neither absent nor over the limit. */
    method Evaluate(e: Expr, s: FlowScope, ghost r: Region, ghost k: Track)
      returns (v: FlowValue, ghost r2: Region, ghost k2: Track)
      requires Closed(r) && s in r.scopes && Tracks(k, s, r) && |flows| <= MAX_FLOWS
      requires !e.NoExpr? && (k.Tracked? ==> Direct(k.Names(), e) || Special(k, e))
      modifies this`flows, this`steps, this`depth, this`calls, this`problem, r.scopes`values
      ensures Kept(r, r2) && Closed(r2) && ValueIn(v, r2) && Tracks(k2, s, r2) && Follows(k2, k, problem)
      ensures DeliveredAs(v, flows, k2, Expected(k.In(script, calls), e, k, old(flows)),
                          ExpectedKind(k.In(script, calls), e, k, old(flows)), NamedFunction(e, k))
      decreases Fuel(), 8
    {
      hide Closed; hide Tracks; hide AbsExpr; hide AbsKind; hide Direct; hide Special; hide SourceAt; hide SourceKind;
      hide GlobalPath; hide NamesFrom; hide Unshadowed;
      TracksHere(k, s, r);
      var path := PathOf(e, s, 0, r, k);
      var kind := InputKind(path);
      if k.Tracked? {
        AbsExprCases(k.In(script, calls), e, Abs(k.vars, flows));
      }
      if kind.Some? {
        NothingKnown(s, r);
        NoKindAtInputs(k.In(script, calls), e, k, flows);
        SourceAnywhere(k, script, calls, Node(e), kind.value, "");
        v := SourceValue(e.at, kind.value, "");
        return v, r, Stopped(k, problem);
      }
      v, r2, k2 := Inspect(e, s, r, k);
    }

    /** An expression that reads an input names no function and makes no query parameters. */
    lemma NoKindAtInputs(cfg: Script, e: Expr, k: Track, flows: seq<Flow>)
      requires k.Tracked? ==> k.vars != [] && Unshadowed(k.vars, k.Names())
      requires k.Tracked? ==> SourceKind(GlobalPath(e, Bound(k.vars))).Some?
      ensures ExpectedKind(cfg, e, k, flows) == "" && NamedFunction(e, k) == null
    {
      hide SourceKind;
      if k.Tracked? && e.Identifier? && e.name in k.funs {
        assert e.name in k.vars[|k.vars| - 1];
        assert e.name in Bound(k.vars);
        assert GlobalPath(e, Bound(k.vars)) == "";
        NoEmptyInput();
      }
    }

    lemma NoEmptyInput()
      ensures SourceKind("").None?
    {
    }

    /** The cases of an expression that does not read an input. */
    method Inspect(e: Expr, s: FlowScope, ghost r: Region, ghost k: Track)
      returns (v: FlowValue, ghost r2: Region, ghost k2: Track)
      requires Closed(r) && s in r.scopes && Tracks(k, s, r) && |flows| <= MAX_FLOWS
      requires k.Tracked? ==> Direct(k.Names(), e) || Special(k, e)
      requires k.Tracked? ==> k.vars != [] && SourceKind(GlobalPath(e, Bound(k.vars))).None?
      modifies this`flows, this`steps, this`depth, this`calls, this`problem, r.scopes`values
      ensures Kept(r, r2) && Closed(r2) && ValueIn(v, r2) && Tracks(k2, s, r2) && Follows(k2, k, problem)
      ensures DeliveredAs(v, flows, k2, Expected(k.In(script, calls), e, k, old(flows)),
                          ExpectedKind(k.In(script, calls), e, k, old(flows)), NamedFunction(e, k))
      decreases Fuel(), 7
    {
      hide Closed; hide Tracks; hide AbsExpr; hide AbsKind; hide Direct; hide GlobalPath; hide SourceKind;
      hide Parameters;
      if k.Tracked? {
        AbsExprCases(k.In(script, calls), e, Abs(k.vars, flows));
        SpecifiedCases(k, e);
      }
      if e.Identifier? {
        var found := Find(s, e.name, r, k);
        NothingKnown(s, r);
        v, r2, k2 := if found.Some? then found.value else Nothing, r, Stopped(k, problem);
      } else if e.Assign? {
        v, r2, k2 := AssignExpr(e, s, r, k);
      } else if e.Binary? {
        v, r2, k2 := BinaryExpr(e, s, r, k);
      } else if e.Template? {
        v, r2, k2 := TemplateExpr(e, s, r, k);
      } else if e.Sequence? {
        v, r2, k2 := SequenceExpr(e, s, r, k);
      } else if e.Conditional? {
        v, r2, k2 := ConditionalExpr(e, s, r, k);
      } else if e.Call? {
        v, r2, k2 := CallExpr(e, s, r, k);
      } else if e.Await? || e.Unary? {
        v, r2, k2 := OperandExpr(e, s, r, k);
      } else if e.New? {
        v, r2, k2 := NewExpr(e, s, r, k);
      } else if e.FunctionExpr? {
        v, r2 := Closure(e.params, e.body, s, r);
        k2 := Untracked;
        NothingKnown(s, r2);
      } else {
        NothingKnown(s, r);
        v, r2, k2 := Nothing, r, Stopped(k, problem);
      }
    }

    /** What may be specified: the fragment, names of functions, and query parameters. */
    lemma SpecifiedCases(k: Track, e: Expr)
      requires k.Tracked? && (Direct(k.Names(), e) || Special(k, e))
      ensures e.New? && e.args != [] ==> Direct(k.Names(), e.args[0])
      ensures !e.New? && !e.Identifier? ==> Direct(k.Names(), e)
      ensures !e.FunctionExpr?
    {
      if e.New? && e.args != [] {
        ReferenceIsPure(Script(0, 0, x => x, (x, y) => false), k.Names(), e.args[0], EMPTY);
      }
    }

    /** The operand of `await` or of a unary operator. */
    method OperandExpr(e: Expr, s: FlowScope, ghost r: Region, ghost k: Track)
      returns (v: FlowValue, ghost r2: Region, ghost k2: Track)
      requires Closed(r) && s in r.scopes && Tracks(k, s, r) && |flows| <= MAX_FLOWS
      requires k.Tracked? ==> Direct(k.Names(), e) && k.vars != []
      requires e.Await? || e.Unary?
      modifies this`flows, this`steps, this`depth, this`calls, this`problem, r.scopes`values
      ensures Kept(r, r2) && Closed(r2) && ValueIn(v, r2) && Tracks(k2, s, r2)
      ensures Follows(k2, k, problem) && Delivered(v, flows, k2, Expected(k.In(script, calls), e, k, old(flows)))
      decreases Fuel(), 3
    {
      hide Closed; hide Tracks; hide AbsExpr; hide Direct;
      if k.Tracked? {
        AbsExprCases(k.In(script, calls), e, Abs(k.vars, flows));
        DirectCases(k.Names(), e);
      }
      v, r2, k2 := Expression(e.operand, s, r, k);
    }

    /** A function value that closes over `s`. */
    method Closure(params: seq<Target>, body: Body, s: FlowScope, ghost r: Region)
      returns (v: FlowValue, ghost r2: Region)
      requires Closed(r) && s in r.scopes
      ensures r.Within(r2) && r2.scopes == r.scopes && fresh(r2.functions - r.functions) && Closed(r2)
      ensures ValueIn(v, r2) && v.sources == [] && v.params == ""
      ensures v.fn != null && fresh(v.fn) && v.fn.params == params && v.fn.body == body && v.fn.scope == s
      ensures r2.functions == r.functions + {v.fn}
    {
      var f := new FlowFunction(params, body, s);
      r2 := Region(r.scopes, r.functions + {f});
      v := FlowValue([], "", f);
      assert forall q :: q in r.scopes ==> old(ParentIn(q, r));
    }

    /** An assignment; a compound one reads its target after the right side. */
    method AssignExpr(e: Expr, s: FlowScope, ghost r: Region, ghost k: Track)
      returns (v: FlowValue, ghost r2: Region, ghost k2: Track)
      requires Closed(r) && s in r.scopes && Tracks(k, s, r) && |flows| <= MAX_FLOWS
      requires k.Tracked? ==> Direct(k.Names(), e) && k.vars != []
      requires e.Assign?
      modifies this`flows, this`steps, this`depth, this`calls, this`problem, r.scopes`values
      ensures Kept(r, r2) && Closed(r2) && ValueIn(v, r2) && Tracks(k2, s, r2)
      ensures Follows(k2, k, problem) && Delivered(v, flows, k2, Expected(k.In(script, calls), e, k, old(flows)))
      decreases Fuel(), 3
    {
      hide Closed; hide Tracks; hide AbsExpr; hide Direct; hide AbsStore; hide Join; hide DeliveredAs;
      if k.Tracked? {
        AssignCase(k.In(script, calls), k.Names(), e, Abs(k.vars, flows));
      }
      v, r2, k2 := Expression(e.right, s, r, k);
      if e.compound {
        v, r2, k2 := CompoundValue(e.left, v, s, r2, k2);
      }
      k2 := Store(e.left, v, s, r2, k2);
    }

    /** What a compound assignment stores: the new value joined to the old one. */
    method CompoundValue(left: Expr, value: FlowValue, s: FlowScope, ghost r: Region, ghost k: Track)
      returns (v: FlowValue, ghost r2: Region, ghost k2: Track)
      requires Closed(r) && s in r.scopes && Tracks(k, s, r) && |flows| <= MAX_FLOWS && ValueIn(value, r)
      requires k.Tracked? ==> Direct(k.Names(), left) && k.vars != [] && value == Plain(value.sources)
      modifies this`flows, this`steps, this`depth, this`calls, this`problem, r.scopes`values
      ensures Kept(r, r2) && Closed(r2) && ValueIn(v, r2) && Tracks(k2, s, r2) && Follows(k2, k, problem)
      ensures k2.Tracked? ==>
        var x := AbsExpr(k.In(script, calls), left, Abs(k.vars, old(flows)));
        Delivered(v, flows, k2, x.(value := Join(x.value, value.sources)))
      decreases Fuel(), 2
    {
      hide Closed; hide Tracks; hide AbsExpr; hide Direct; hide Join; hide DeliveredAs;
      var before;
      before, r2, k2 := Expression(left, s, r, k);
      v := JoinValues(before, value);
      NothingKnown(s, r2);
      k2 := Stopped(k2, problem);
    }

    /** Stores a value in a variable, or reports a property that is a sink. */
    method Store(left: Expr, v: FlowValue, s: FlowScope, ghost r: Region, ghost k: Track) returns (ghost k2: Track)
      requires Closed(r) && s in r.scopes && Tracks(k, s, r) && |flows| <= MAX_FLOWS && ValueIn(v, r)
      requires k.Tracked? ==>
                 v == Plain(v.sources) && k.vars != [] && (left.Identifier? ==> left.name !in k.Names())
      modifies this`flows, this`problem, r.scopes`values
      ensures Closed(r) && Tracks(k2, s, r) && |flows| <= MAX_FLOWS && old(flows) <= flows
      ensures Follows(k2, k, problem) && (old(problem) != "" ==> problem != "")
      ensures k2.Tracked? ==>
              Abs(k2.vars, flows) == AbsStore(k.In(script, calls), left, v.sources, Abs(k.vars, old(flows)))
    {
      hide Closed; hide Tracks; hide Plain; hide Record; hide AssignTo;
      if left.Identifier? {
        Assign(s, left.name, v, r, k);
        k2 := if k.Tracked? && problem == "" then k.(vars := AssignTo(k.vars, left.name, v.sources)) else Untracked;
      } else {
        var m := Member(left);
        if m.Some? && (m.value.1 == "innerHTML" || m.value.1 == "outerHTML" || m.value.1 == "srcdoc") {
          RecordAnywhere(k.In(script, calls), script, flows, Node(left), m.value.1, v.sources);
          Sink(left.at, m.value.1, v);
        }
        k2 := Stopped(k, problem);
      }
      NothingKnown(s, r);
    }

    /** A copy of everything `s` refers to, for a branch to work on. */
    method Branch(s: FlowScope, ghost r: Region, ghost k: Track)
      returns (c: FlowScope, ghost q: Region, ghost kc: Track, ghost sm: map<FlowScope, FlowScope>,
               ghost fm: map<FlowFunction, FlowFunction>)
      requires Closed(r) && s in r.scopes && Tracks(k, s, r)
      modifies this`steps, this`problem
      ensures Closed(q) && c in q.scopes && fresh(q.scopes) && fresh(q.functions) && c.depth == s.depth
      ensures IsCopy(s, c, q, sm, fm, problem == "")
      ensures Tracks(kc, c, q) && (kc.Tracked? <==> k.Tracked? && problem == "") && (kc.Tracked? ==> kc.vars == k.vars)
      ensures Twin(k, kc) && steps >= old(steps) && (old(problem) != "" ==> problem != "")
    {
      hide Closed; hide Tracks; hide Isomorphism;
      c, sm, fm := CloneScope(s, r);
      q := Image(sm, fm);
      NothingKnown(c, q);
      kc := Untracked;
      if k.Tracked? && problem == "" {
        kc := CloneTracks(k, s, r, sm, fm);
      }
    }

    /** Merges two branches into the scope they started from. */
    method Rejoin(s: FlowScope, left: FlowScope, right: FlowScope, ghost r: Region, ghost q: Region,
                  ghost k: Track, ghost kl: Track, ghost kr: Track)
      returns (ghost r2: Region, ghost k2: Track)
      requires Closed(r) && Closed(q) && r.scopes !! q.scopes && s in r.scopes && right in q.scopes
      requires s.depth == left.depth == right.depth
      requires Tracks(k, s, r) && Tracks(kr, right, q)
      requires if left == s then kl == k else left in q.scopes && Tracks(kl, left, q)
      requires k.Tracked? ==> kl.Tracked? && kr.Tracked? && (left != s ==> Twin(k, kl)) && Twin(k, kr)
      modifies this`steps, this`problem, r.scopes`values
      ensures r2 == r.Union(q) && Closed(r2) && Tracks(k2, s, r2) && Follows(k2, k, problem)
      ensures steps >= old(steps) && (old(problem) != "" ==> problem != "")
      ensures problem == "" ==>
        ChainValues(s, r2)
            == MergedChain(old(ChainValues(s, r)), old(ChainValues(left, if left == s then r else q)),
                           old(ChainValues(right, q)))
      ensures k2.Tracked? ==> |k.vars| == |kl.vars| == |kr.vars| && k2.vars == MergeChain(k.vars, kl.vars, kr.vars)
    {
      hide Tracks; hide Closed; hide MergeChain; hide MergedChain; hide ValuesAlong; hide IsChain; hide IsLine;
      hide ChainValues; hide Settled; hide Unshadowed; hide HoldingAlong; hide SameFunctions; hide Texts;
      ghost var lo := ChainOf(s, r);
      ghost var lr := ChainOf(right, q);
      ghost var ll := lo;
      if left != s { ll := ChainOf(left, q); }
      ChainHolds(lo, s, r); ChainHolds(ll, left, if left == s then r else q); ChainHolds(lr, right, q);
      r2 := r.Union(q);
      ParentsAreWithin(r); ParentsAreWithin(q);
      ClosedUnion(r, q);
      if k.Tracked? {
        TracksHere(k, s, r);
        TracksAlong(k, s, r, lo);
        TracksAlong(kr, right, q, lr);
        if left != s { TracksAlong(kl, left, q, ll); }
        TracksHere(kl, left, if left == s then r else q);
        TracksHere(kr, right, q);
        TracksSettled(k, s, r);
        TwinsMatch(k, kl);
        TwinsMatch(k, kr);
        HoldingMergedAlong(k.vars, kl.vars, kr.vars, k.funs, kl.funs, kr.funs);
      }
      MergeScopes(s, left, right, r2, r.scopes, q.scopes, lo, ll, lr);
      ChainHolds(lo, s, r2);
      NothingKnown(s, r2);
      k2 := Untracked;
      if k.Tracked? && problem == "" {
        k2 := k.(vars := MergeChain(k.vars, kl.vars, kr.vars));
        TracksAgain(k, s, r2, k2.vars);
      }
    }

    /** Two copies, one for each alternative. */
    method Branches(s: FlowScope, ghost r: Region, ghost k: Track)
      returns (left: FlowScope, ghost ql: Region, ghost kl: Track, right: FlowScope, ghost qr: Region, ghost kr: Track,
               ghost sl: map<FlowScope, FlowScope>, ghost fl: map<FlowFunction, FlowFunction>,
               ghost sr: map<FlowScope, FlowScope>, ghost fr: map<FlowFunction, FlowFunction>)
      requires Closed(r) && s in r.scopes && Tracks(k, s, r)
      modifies this`steps, this`problem
      ensures Closed(ql) && left in ql.scopes && fresh(ql.scopes) && fresh(ql.functions) && left.depth == s.depth
      ensures Closed(qr) && right in qr.scopes && fresh(qr.scopes) && fresh(qr.functions) && right.depth == s.depth
      ensures IsCopy(s, left, ql, sl, fl, problem == "") && IsCopy(s, right, qr, sr, fr, problem == "")
      ensures ql.Apart(qr) && Tracks(kl, left, ql) && Tracks(kr, right, qr) && Together(kl, kr)
      ensures (kl.Tracked? <==> k.Tracked? && problem == "") && (kl.Tracked? ==> kl.vars == k.vars)
      ensures Twin(k, kl) && Twin(k, kr) && steps >= old(steps) && (old(problem) != "" ==> problem != "")
    {
      hide Closed; hide Tracks; hide IsCopy;
      left, ql, kl, sl, fl := Branch(s, r, k);
      LessOfACopy(s, left, ql, sl, fl, problem == "");
      right, qr, kr, sr, fr := Branch(s, r, k);
      NothingKnown(left, ql);
      kl := Stopped(kl, problem);
    }

    /** Merges two branches that worked on copies of their own. */
    method RejoinTwo(s: FlowScope, left: FlowScope, right: FlowScope, ghost r: Region, ghost ql: Region,
                     ghost qr: Region,
                     ghost k: Track, ghost kl: Track, ghost kr: Track)
      returns (ghost r2: Region, ghost k2: Track)
      requires Closed(r) && Closed(ql) && Closed(qr) && r.scopes !! ql.scopes && r.scopes !! qr.scopes
      requires s in r.scopes && left in ql.scopes && right in qr.scopes && s.depth == left.depth == right.depth
      requires Tracks(k, s, r) && Tracks(kl, left, ql) && Tracks(kr, right, qr)
      requires k.Tracked? ==> kl.Tracked? && kr.Tracked? && Twin(k, kl) && Twin(k, kr)
      modifies this`steps, this`problem, r.scopes`values
      ensures r2 == r.Union(ql.Union(qr)) && Closed(r2) && Tracks(k2, s, r2) && Follows(k2, k, problem)
      ensures steps >= old(steps) && (old(problem) != "" ==> problem != "")
      ensures problem == "" ==>
        ChainValues(s, r2)
            == MergedChain(old(ChainValues(s, r)), old(ChainValues(left, ql)), old(ChainValues(right, qr)))
      ensures k2.Tracked? ==> |k.vars| == |kl.vars| == |kr.vars| && k2.vars == MergeChain(k.vars, kl.vars, kr.vars)
    {
      hide Tracks; hide Closed; hide MergeChain; hide MergedChain; hide ValuesAlong; hide ChainValues;
      ghost var q := ql.Union(qr);
      ClosedUnion(ql, qr);
      TracksWithin(kl, left, ql, q); TracksWithin(kr, right, qr, q);
      ChainWithin(left, ql, q); ChainWithin(right, qr, q);
      r2, k2 := Rejoin(s, left, right, r, q, k, kl, kr);
    }

    /** A binary or logical operator. A literal left operand may decide that the right one never runs. */
    method BinaryExpr(e: Expr, s: FlowScope, ghost r: Region, ghost k: Track)
      returns (v: FlowValue, ghost r2: Region, ghost k2: Track)
      requires Closed(r) && s in r.scopes && Tracks(k, s, r) && |flows| <= MAX_FLOWS
      requires k.Tracked? ==> Direct(k.Names(), e) && k.vars != []
      requires e.Binary?
      modifies this`flows, this`steps, this`depth, this`calls, this`problem, r.scopes`values
      ensures Kept(r, r2) && Closed(r2) && ValueIn(v, r2) && Tracks(k2, s, r2)
      ensures Follows(k2, k, problem) && Delivered(v, flows, k2, Expected(k.In(script, calls), e, k, old(flows)))
      decreases Fuel(), 3
    {
      hide Closed; hide Tracks; hide AbsExpr; hide Direct; hide Join; hide MergeChain;
      if k.Tracked? {
        BinaryCase(k.In(script, calls), k.Names(), e, Abs(k.vars, flows));
      }
      var left, r1, k1 := Expression(e.left, s, r, k);
      if e.left.BooleanLiteral?
        && ((e.op.LogicalAnd? && !e.left.truth) || (e.op.LogicalOr? && e.left.truth) || e.op.Coalesce?)
      {
        return left, r1, k1;
      }
      var right;
      right, r2, k2 := RightExpr(e, s, r1, k1);
      v := JoinValues(left, right);
      NothingKnown(s, r2);
      k2 := Stopped(k2, problem);
    }

    /** The right operand of an operator. */
    method RightExpr(e: Expr, s: FlowScope, ghost r: Region, ghost k: Track)
      returns (v: FlowValue, ghost r2: Region, ghost k2: Track)
      requires Closed(r) && s in r.scopes && Tracks(k, s, r) && |flows| <= MAX_FLOWS && e.Binary?
      requires k.Tracked? ==> Direct(k.Names(), e.right) && k.vars != []
      modifies this`flows, this`steps, this`depth, this`calls, this`problem, r.scopes`values
      ensures Kept(r, r2) && Closed(r2) && ValueIn(v, r2) && Tracks(k2, s, r2) && Follows(k2, k, problem)
      ensures k2.Tracked? ==>
        var x := AbsExpr(k.In(script, calls), e.right, Abs(k.vars, old(flows)));
        && v == Plain(x.value) && flows == x.after.flows && |x.after.vars| == |k.vars|
        && k2.vars == if MayNotRun(e) then MergeChain(k.vars, k.vars, x.after.vars) else x.after.vars
      decreases Fuel(), 2
    {
      hide Closed; hide Tracks; hide AbsExpr; hide Direct; hide MergeChain; hide Plain;
      if (e.op.LogicalAnd? || e.op.LogicalOr? || e.op.Coalesce?) && !e.left.BooleanLiteral? {
        var branch;
        ghost var q;
        v, r2, k2, branch, q := MaybeExpr(e.right, s, r, k);
      } else {
        v, r2, k2 := Expression(e.right, s, r, k);
      }
    }

    /** A right operand that runs or not: it works on a copy, which is merged into the scopes as they were. */
    method MaybeExpr(e: Expr, s: FlowScope, ghost r: Region, ghost k: Track)
      returns (v: FlowValue, ghost r2: Region, ghost k2: Track, branch: FlowScope, ghost q: Region)
      requires Closed(r) && s in r.scopes && Tracks(k, s, r) && |flows| <= MAX_FLOWS
      requires k.Tracked? ==> Direct(k.Names(), e) && k.vars != []
      modifies this`flows, this`steps, this`depth, this`calls, this`problem, r.scopes`values
      ensures Kept(r, r2) && Closed(r2) && ValueIn(v, r2) && Tracks(k2, s, r2) && Follows(k2, k, problem)
      ensures Closed(q) && branch in q.scopes && fresh(q.scopes) && fresh(q.functions) && branch.depth == s.depth
      ensures problem == "" ==>
        ChainValues(s, r2) == MergedChain(old(ChainValues(s, r)), old(ChainValues(s, r)), ChainValues(branch, q))
      ensures k2.Tracked? ==>
        var x := AbsExpr(k.In(script, calls), e, Abs(k.vars, old(flows)));
        v == Plain(x.value) && flows == x.after.flows && k2.vars == MergeChain(k.vars, k.vars, x.after.vars)
      decreases Fuel(), 1
    {
      hide Closed; hide Tracks; hide AbsExpr; hide Direct; hide MergeChain; hide IsCopy; hide ChainValues;
      hide MergedChain; hide SameFunctions; hide Texts;
      ghost var kb, sm, fm;
      branch, q, kb, sm, fm := Branch(s, r, k);
      if kb.Tracked? {
        TwinsAgree(k, kb, script, calls);
      }
      v, q, kb := Expression(e, branch, q, kb);
      NothingKnown(s, r);
      assert unchanged(r.scopes) && unchanged(r.functions);
      label Done:
      r2, k2 := Rejoin(s, s, branch, r, q, Stopped(k, problem), Stopped(k, problem), kb);
      assert unchanged@Done(q.scopes) && unchanged@Done(q.functions);
    }

    /** Evaluates an expression and joins its value with what came before it. */
    method ExpressionJoined(before: FlowValue, e: Expr, s: FlowScope, ghost r: Region, ghost k: Track)
      returns (v: FlowValue, joined: FlowValue, ghost r2: Region, ghost k2: Track)
      requires Closed(r) && s in r.scopes && Tracks(k, s, r) && |flows| <= MAX_FLOWS && ValueIn(before, r)
      requires k.Tracked? ==> Direct(k.Names(), e)
      modifies this`flows, this`steps, this`depth, this`calls, this`problem, r.scopes`values
      ensures Kept(r, r2) && Closed(r2) && ValueIn(v, r2) && ValueIn(joined, r2) && Tracks(k2, s, r2)
      ensures Follows(k2, k, problem) && Delivered(v, flows, k2, Expected(k.In(script, calls), e, k, old(flows)))
      ensures k2.Tracked? && before == Plain(before.sources) && v == Plain(v.sources) ==>
        joined == Plain(Join(before.sources, v.sources))
      decreases Fuel(), 1
    {
      hide Closed; hide Tracks; hide AbsExpr; hide Direct; hide Plain; hide Join;
      v, r2, k2 := Expression(e, s, r, k);
      joined := JoinValues(before, v);
      NothingKnown(s, r2);
      k2 := Stopped(k2, problem);
    }

    /** The values of a list of expressions and their join, from left to right. */
    method Arguments(es: seq<Expr>, s: FlowScope, ghost r: Region, ghost k: Track)
      returns (values: seq<FlowValue>, joined: FlowValue, ghost r2: Region, ghost k2: Track)
      requires Closed(r) && s in r.scopes && Tracks(k, s, r) && |flows| <= MAX_FLOWS
      requires k.Tracked? ==> DirectList(k.Names(), es) && k.vars != []
      modifies this`flows, this`steps, this`depth, this`calls, this`problem, r.scopes`values
      ensures Kept(r, r2) && Closed(r2) && Tracks(k2, s, r2) && Follows(k2, k, problem)
      ensures |values| == |es| && (forall i :: 0 <= i < |values| ==> ValueIn(values[i], r2)) && ValueIn(joined, r2)
      ensures k2.Tracked? ==>
              ListDelivered(values, joined, flows, k2, AbsList(k.In(script, calls), es, Abs(k.vars, old(flows))))
      decreases Fuel(), 2
    {
      hide Closed; hide Tracks; hide AbsExpr; hide AbsList; hide Direct; hide ListDelivered;
      values, joined, r2, k2 := [], Nothing, r, Stopped(k, problem);
      NothingKnown(s, r);
      if k.Tracked? {
        NothingDelivered(k.In(script, calls), Abs(k.vars, flows), k);
      }
      assert es[..0] == [];
      var i := 0;
      while i < |es|
        invariant 0 <= i <= |es| && |values| == i
        invariant Kept(r, r2) && Closed(r2) && Tracks(k2, s, r2) && Follows(k2, k, problem)
        invariant (forall j :: 0 <= j < i ==> ValueIn(values[j], r2)) && ValueIn(joined, r2)
        invariant k2.Tracked? ==>
                  ListDelivered(values, joined, flows, k2,
                                AbsList(k.In(script, calls), es[..i], Abs(k.vars, old(flows))))
        invariant k2.Tracked? ==> k2.vars != []
      {
        ghost var k1, flows1 := k2, flows;
        var value, next;
        value, next, r2, k2 := ExpressionJoined(joined, es[i], s, r2, k2);
        if k2.Tracked? {
          OneMoreDelivered(k.In(script, calls), es, Abs(k.vars, old(flows)), i, values, joined, flows1, k1, value,
                           next, flows, k2);
        }
        values, joined := values + [value], next;
        i := i + 1;
      }
      assert es[..|es|] == es;
    }

    /** A template: its value joins those of its parts. */
    method TemplateExpr(e: Expr, s: FlowScope, ghost r: Region, ghost k: Track)
      returns (v: FlowValue, ghost r2: Region, ghost k2: Track)
      requires Closed(r) && s in r.scopes && Tracks(k, s, r) && |flows| <= MAX_FLOWS
      requires k.Tracked? ==> Direct(k.Names(), e) && k.vars != []
      requires e.Template?
      modifies this`flows, this`steps, this`depth, this`calls, this`problem, r.scopes`values
      ensures Kept(r, r2) && Closed(r2) && ValueIn(v, r2) && Tracks(k2, s, r2)
      ensures Follows(k2, k, problem) && Delivered(v, flows, k2, Expected(k.In(script, calls), e, k, old(flows)))
      decreases Fuel(), 3
    {
      hide Closed; hide Tracks; hide AbsExpr; hide AbsList; hide Direct;
      if k.Tracked? {
        AbsExprCases(k.In(script, calls), e, Abs(k.vars, flows));
        DirectCases(k.Names(), e);
      }
      var values;
      values, v, r2, k2 := Arguments(e.parts, s, r, k);
    }

    /** A comma expression: its value is the last one. */
    method SequenceExpr(e: Expr, s: FlowScope, ghost r: Region, ghost k: Track)
      returns (v: FlowValue, ghost r2: Region, ghost k2: Track)
      requires Closed(r) && s in r.scopes && Tracks(k, s, r) && |flows| <= MAX_FLOWS
      requires k.Tracked? ==> Direct(k.Names(), e) && k.vars != []
      requires e.Sequence?
      modifies this`flows, this`steps, this`depth, this`calls, this`problem, r.scopes`values
      ensures Kept(r, r2) && Closed(r2) && ValueIn(v, r2) && Tracks(k2, s, r2)
      ensures Follows(k2, k, problem) && Delivered(v, flows, k2, Expected(k.In(script, calls), e, k, old(flows)))
      decreases Fuel(), 3
    {
      hide Closed; hide Tracks; hide AbsExpr; hide AbsList; hide Direct;
      if k.Tracked? {
        AbsExprCases(k.In(script, calls), e, Abs(k.vars, flows));
        DirectCases(k.Names(), e);
      }
      v, r2, k2 := LastOf(e.parts, s, r, k);
    }

    method LastOf(es: seq<Expr>, s: FlowScope, ghost r: Region, ghost k: Track)
      returns (v: FlowValue, ghost r2: Region, ghost k2: Track)
      requires Closed(r) && s in r.scopes && Tracks(k, s, r) && |flows| <= MAX_FLOWS
      requires k.Tracked? ==> DirectList(k.Names(), es) && k.vars != []
      modifies this`flows, this`steps, this`depth, this`calls, this`problem, r.scopes`values
      ensures Kept(r, r2) && Closed(r2) && ValueIn(v, r2) && Tracks(k2, s, r2) && Follows(k2, k, problem)
      ensures k2.Tracked? ==> LastDelivered(v, flows, k2, AbsList(k.In(script, calls), es, Abs(k.vars, old(flows))))
      decreases Fuel(), 2
    {
      hide Closed; hide Tracks; hide AbsExpr; hide AbsList; hide Direct; hide LastDelivered;
      v, r2, k2 := Nothing, r, Stopped(k, problem);
      NothingKnown(s, r);
      if k.Tracked? {
        LastOfNone(k.In(script, calls), Abs(k.vars, flows), k);
      }
      assert es[..0] == [];
      var i := 0;
      while i < |es|
        invariant 0 <= i <= |es|
        invariant Kept(r, r2) && Closed(r2) && ValueIn(v, r2) && Tracks(k2, s, r2) && Follows(k2, k, problem)
        invariant k2.Tracked? ==>
                  LastDelivered(v, flows, k2, AbsList(k.In(script, calls), es[..i], Abs(k.vars, old(flows))))
      {
        ghost var k1, flows1, v1 := k2, flows, v;
        v, r2, k2 := Expression(es[i], s, r2, k2);
        if k2.Tracked? {
          OneMoreLast(k.In(script, calls), es, Abs(k.vars, old(flows)), i, v1, flows1, k1, v, flows, k2);
        }
        i := i + 1;
      }
      assert es[..|es|] == es;
    }

    /** A conditional expression: both alternatives are analysed unless the test is a literal. */
    method ConditionalExpr(e: Expr, s: FlowScope, ghost r: Region, ghost k: Track)
      returns (v: FlowValue, ghost r2: Region, ghost k2: Track)
      requires Closed(r) && s in r.scopes && Tracks(k, s, r) && |flows| <= MAX_FLOWS
      requires k.Tracked? ==> Direct(k.Names(), e) && k.vars != []
      requires e.Conditional?
      modifies this`flows, this`steps, this`depth, this`calls, this`problem, r.scopes`values
      ensures Kept(r, r2) && Closed(r2) && ValueIn(v, r2) && Tracks(k2, s, r2)
      ensures Follows(k2, k, problem) && Delivered(v, flows, k2, Expected(k.In(script, calls), e, k, old(flows)))
      decreases Fuel(), 4
    {
      hide Closed; hide Tracks; hide AbsExpr; hide AbsList; hide Direct; hide Join; hide MergeChain;
      if k.Tracked? {
        ConditionalCase(k.In(script, calls), k.Names(), e, Abs(k.vars, flows));
      }
      var test, r1, k1 := Expression(e.test, s, r, k);
      if e.test.BooleanLiteral? {
        v, r2, k2 := Expression(if e.test.truth then e.consequent else e.alternate, s, r1, k1);
      } else {
        v, r2, k2 := EitherExpr(e.consequent, e.alternate, s, r1, k1);
      }
    }

    /** Either of two expressions: each works on its own copy, then both are merged. */
    method EitherExpr(yes: Expr, no: Expr, s: FlowScope, ghost r: Region, ghost k: Track)
      returns (v: FlowValue, ghost r2: Region, ghost k2: Track)
      requires Closed(r) && s in r.scopes && Tracks(k, s, r) && |flows| <= MAX_FLOWS
      requires k.Tracked? ==> Direct(k.Names(), yes) && Direct(k.Names(), no) && k.vars != []
      modifies this`flows, this`steps, this`depth, this`calls, this`problem, r.scopes`values
      ensures Kept(r, r2) && Closed(r2) && ValueIn(v, r2) && Tracks(k2, s, r2) && Follows(k2, k, problem)
      ensures k2.Tracked? ==>
        var x := AbsExpr(k.In(script, calls), yes, Abs(k.vars, old(flows)));
        var y := AbsExpr(k.In(script, calls), no, Abs(k.vars, x.after.flows));
        && v == Plain(Join(x.value, y.value)) && flows == y.after.flows
        && k2.vars == MergeChain(k.vars, x.after.vars, y.after.vars)
      decreases Fuel(), 3
    {
      hide Closed; hide Tracks; hide AbsExpr; hide Direct; hide MergeChain; hide Join; hide Plain;
      var left, right;
      ghost var ql, kl, qr, kr;
      v, left, ql, kl, right, qr, kr := AlternativeExprs(yes, no, s, r, k);
      NothingKnown(s, r);
      r2, k2 := RejoinTwo(s, left, right, r, ql, qr, Stopped(k, problem), kl, kr);
    }

    /** The two alternatives on their copies, with the scopes they started from left as they were. */
    method AlternativeExprs(yes: Expr, no: Expr, s: FlowScope, ghost r: Region, ghost k: Track)
      returns (v: FlowValue, left: FlowScope, ghost ql: Region, ghost kl: Track, right: FlowScope, ghost qr: Region,
               ghost kr: Track)
      requires Closed(r) && s in r.scopes && Tracks(k, s, r) && |flows| <= MAX_FLOWS
      requires k.Tracked? ==> Direct(k.Names(), yes) && Direct(k.Names(), no) && k.vars != []
      modifies this`flows, this`steps, this`depth, this`calls, this`problem
      ensures Kept(r, r) && fresh(ql.scopes) && fresh(ql.functions) && fresh(qr.scopes) && fresh(qr.functions)
      ensures Closed(ql) && left in ql.scopes && Tracks(kl, left, ql) && left.depth == s.depth
      ensures Closed(qr) && right in qr.scopes && Tracks(kr, right, qr) && right.depth == s.depth
      ensures ValueIn(v, ql.Union(qr)) && (kl.Tracked? <==> k.Tracked? && problem == "")
              && (kr.Tracked? <==> kl.Tracked?) && Twin(k, kl) && Twin(k, kr)
      ensures kl.Tracked? ==>
        var x := AbsExpr(k.In(script, calls), yes, Abs(k.vars, old(flows)));
        var y := AbsExpr(k.In(script, calls), no, Abs(k.vars, x.after.flows));
        && v == Plain(Join(x.value, y.value)) && flows == y.after.flows
        && kl.vars == x.after.vars && kr.vars == y.after.vars
      decreases Fuel(), 2
    {
      hide Closed; hide Tracks; hide AbsExpr; hide Direct; hide Join; hide Plain; hide IsCopy;
      hide SameFunctions; hide Texts;
      ghost var sl, fl, sr, fr;
      left, ql, kl, right, qr, kr, sl, fl, sr, fr := Branches(s, r, k);
      if kl.Tracked? {
        TwinsAgree(k, kl, script, calls);
      }
      v, ql, kl, qr, kr := BothExprs(yes, left, ql, kl, no, right, qr, kr);
    }

    /** The two alternatives, one after the other, each on its own copy of the scopes. */
    method BothExprs(yes: Expr, left: FlowScope, ghost ql: Region, ghost kl: Track,
                     no: Expr, right: FlowScope, ghost qr: Region, ghost kr: Track)
      returns (v: FlowValue, ghost ql2: Region, ghost kl2: Track, ghost qr2: Region, ghost kr2: Track)
      requires Closed(ql) && left in ql.scopes && Tracks(kl, left, ql) && |flows| <= MAX_FLOWS
      requires Closed(qr) && right in qr.scopes && Tracks(kr, right, qr) && ql.Apart(qr)
      requires Together(kl, kr) && (kl.Tracked? ==> Direct(kl.Names(), yes) && Direct(kl.Names(), no) && kl.vars != [])
      modifies this`flows, this`steps, this`depth, this`calls, this`problem, ql.scopes`values, qr.scopes`values
      ensures Kept(ql, ql2) && Closed(ql2) && Tracks(kl2, left, ql2)
      ensures Kept(qr, qr2) && Closed(qr2) && Tracks(kr2, right, qr2)
      ensures ValueIn(v, ql2.Union(qr2)) && Follows(kl2, kl, problem) && Follows(kr2, kr, problem)
      ensures kl2.Tracked? ==>
        var x := AbsExpr(kl.In(script, calls), yes, Abs(kl.vars, old(flows)));
        var y := AbsExpr(kl.In(script, calls), no, Abs(kl.vars, x.after.flows));
        v == Plain(Join(x.value, y.value)) && flows == y.after.flows && kl2.vars == x.after.vars
            && kr2.vars == y.after.vars
      decreases Fuel(), 1
    {
      hide Closed; hide Tracks; hide AbsExpr; hide Direct; hide Join; hide SameFunctions; hide Texts;
      if kl.Tracked? {
        TwinsAgree(kl, kr, script, calls);
      }
      var v1, v2;
      v1, ql2, kl2 := Expression(yes, left, ql, kl);
      NothingKnown(right, qr);
      v2, qr2, kr2 := Expression(no, right, qr, Stopped(kr, problem));
      v := JoinValues(v1, v2);
      NothingKnown(left, ql2); NothingKnown(right, qr2);
      kl2, kr2 := Stopped(kl2, problem), Stopped(kr2, problem);
    }

    // -------------------------------------------------------------------------------------------
    // Calls
    // -------------------------------------------------------------------------------------------

    /** `new`: query parameters of a single known source are remembered, everything else is unknown. */
    method NewExpr(e: Expr, s: FlowScope, ghost r: Region, ghost k: Track)
      returns (v: FlowValue, ghost r2: Region, ghost k2: Track)
      requires Closed(r) && s in r.scopes && Tracks(k, s, r) && |flows| <= MAX_FLOWS && e.New?
      requires k.Tracked? ==> k.vars != [] && (e.args != [] ==> Direct(k.Names(), e.args[0]))
      modifies this`flows, this`steps, this`depth, this`calls, this`problem, r.scopes`values
      ensures Kept(r, r2) && Closed(r2) && Tracks(k2, s, r2) && Follows(k2, k, problem)
      ensures v.fn == null && v.sources == []
      ensures k2.Tracked? ==>
        var x := AbsNew(k.In(script, calls), e, Abs(k.vars, old(flows)));
        v.params == x.kind && Abs(k2.vars, flows) == x.after
      decreases Fuel(), 3
    {
      hide Closed; hide Tracks; hide AbsExpr; hide GlobalPath; hide NamesFrom; hide Direct; hide DeliveredAs;
      v, r2, k2 := Nothing, r, Stopped(k, problem);
      NothingKnown(s, r);
      var path := PathOf(e.callee, s, 0, r, k);
      if (path == "URLSearchParams" || path == "window.URLSearchParams") && e.args != [] {
        var first;
        first, r2, k2 := Expression(e.args[0], s, r, k);
        if |first.sources| == 1 {
          v := FlowValue([], first.sources[0].kind, null);
        }
      }
    }

    /** A call: callee, arguments, then the function if it is known. */
    method CallExpr(e: Expr, s: FlowScope, ghost r: Region, ghost k: Track)
      returns (v: FlowValue, ghost r2: Region, ghost k2: Track)
      requires Closed(r) && s in r.scopes && Tracks(k, s, r) && |flows| <= MAX_FLOWS
      requires k.Tracked? ==> Direct(k.Names(), e) && k.vars != []
      requires e.Call?
      modifies this`flows, this`steps, this`depth, this`calls, this`problem, r.scopes`values
      ensures Kept(r, r2) && Closed(r2) && ValueIn(v, r2) && Tracks(k2, s, r2)
      ensures Follows(k2, k, problem) && Delivered(v, flows, k2, Expected(k.In(script, calls), e, k, old(flows)))
      decreases Fuel(), 6
    {
      hide Closed; hide Tracks; hide AbsExpr; hide AbsList; hide Direct; hide AbsCallAfter; hide ListDelivered;
      hide AbsInvoke; hide Callable; hide DirectList;
      if k.Tracked? {
        CallCase(k.In(script, calls), k.Names(), e, Abs(k.vars, flows));
      }
      var callee, args, joined;
      callee, args, joined, r2, k2 := CalleeAndArguments(e, s, r, k);
      ghost var x := if k2.Tracked? then AbsList(k.In(script, calls), e.args, Abs(k.vars, old(flows)))
          else Outcomes([], Abs([], []));
      if callee.fn != null {
        v, r2, k2 := CallFunction(e, callee.fn, args, joined, s, r2, k2, x);
      } else {
        v, r2, k2 := CallOther(e, args, joined, s, r2, k2, x);
      }
    }

    method CalleeAndArguments(e: Expr, s: FlowScope, ghost r: Region, ghost k: Track)
      returns (callee: FlowValue, args: seq<FlowValue>, joined: FlowValue, ghost r2: Region, ghost k2: Track)
      requires Closed(r) && s in r.scopes && Tracks(k, s, r) && |flows| <= MAX_FLOWS && e.Call?
      requires k.Tracked? ==> Callable(k.Names(), e.callee) && DirectList(k.Names(), e.args) && k.vars != []
      modifies this`flows, this`steps, this`depth, this`calls, this`problem, r.scopes`values
      ensures Kept(r, r2) && Closed(r2) && Tracks(k2, s, r2) && Follows(k2, k, problem)
      ensures ValueIn(callee, r2) && (forall i :: 0 <= i < |args| ==> ValueIn(args[i], r2)) && ValueIn(joined, r2)
      ensures k2.Tracked? ==>
        && callee.fn == NamedFunction(e.callee, k)
        && ListDelivered(args, joined, flows, k2, AbsList(k.In(script, calls), e.args, Abs(k.vars, old(flows))))
      decreases Fuel(), 4
    {
      hide Closed; hide Tracks; hide AbsExpr; hide AbsList; hide DirectList; hide Callable; hide ListDelivered;
      hide NamedFunction;
      callee, r2, k2 := Callee(e.callee, s, r, k);
      args, joined, r2, k2 := Arguments(e.args, s, r2, k2);
    }

    /** What is called; looking that up changes nothing on the programs specified. */
    method Callee(e: Expr, s: FlowScope, ghost r: Region, ghost k: Track)
      returns (v: FlowValue, ghost r2: Region, ghost k2: Track)
      requires Closed(r) && s in r.scopes && Tracks(k, s, r) && |flows| <= MAX_FLOWS
      requires k.Tracked? ==> (Callable(k.Names(), e) || Parameters(k.Names(), e)) && k.vars != []
      modifies this`flows, this`steps, this`depth, this`calls, this`problem, r.scopes`values
      ensures Kept(r, r2) && Closed(r2) && ValueIn(v, r2) && Tracks(k2, s, r2) && k2 == Stopped(k, problem)
      ensures k2.Tracked? ==> flows == old(flows)
      ensures k2.Tracked? ==>
        var cfg, a := k.In(script, calls), Abs(k.vars, flows);
        v == FlowValue(AbsExpr(cfg, e, a).value, AbsKind(cfg, e, a), NamedFunction(e, k))
      decreases Fuel(), 1
    {
      hide Closed; hide Tracks; hide AbsExpr; hide AbsKind; hide Direct; hide Callable; hide NamedFunction;
      hide Parameters; hide Delivered;
      if k.Tracked? {
        CalleeIsPure(k.In(script, calls), k, e, Abs(k.vars, flows));
      }
      v, r2, k2 := Expression(e, s, r, k);
    }

    lemma CalleeIsPure(cfg: Script, k: Track, e: Expr, a: Abs)
      requires k.Tracked? && a.vars != [] && (Callable(k.Names(), e) || Parameters(k.Names(), e))
      ensures AbsExpr(cfg, e, a).after == a && (Direct(k.Names(), e) || Special(k, e))
    {
      if Parameters(k.Names(), e) {
        ParametersArePure(cfg, k.Names(), e, a);
      } else if PlainReference(e) && Root(e) !in k.Names() {
        ReferenceIsPure(cfg, k.Names(), e, a);
      }
    }

    /** A call of a known function: what the function does to the scopes it closes over is done. */
    method CallFunction(e: Expr, f: FlowFunction, args: seq<FlowValue>, ghost joined: FlowValue, s: FlowScope,
                        ghost r: Region, ghost k: Track, ghost x: Outcomes)
      returns (v: FlowValue, ghost r2: Region, ghost k2: Track)
      requires Closed(r) && s in r.scopes && f in r.functions && Tracks(k, s, r) && |flows| <= MAX_FLOWS && e.Call?
      requires forall i :: 0 <= i < |args| ==> ValueIn(args[i], r)
      requires k.Tracked? ==>
                 f == NamedFunction(e.callee, k) && ListDelivered(args, joined, flows, k, x) && x.after.vars != []
      modifies this`flows, this`steps, this`depth, this`calls, this`problem, r.scopes`values
      ensures Kept(r, r2) && Closed(r2) && ValueIn(v, r2) && Tracks(k2, s, r2) && Follows(k2, k, problem)
      ensures k2.Tracked? ==>
        CallsDeclared(k.In(script, calls), e) && Delivered(v, flows, k2, AbsInvoke(k.In(script, calls), e, x))
      decreases Fuel(), 4
    {
      hide Closed; hide Tracks; hide AbsFunction; hide RestFits; hide ClosedBeside; hide DirectFunction;
      hide AbsInvoke;
      ghost var q, kf := r, Untracked;
      FunctionScopeIn(f, r);
      NothingKnown(f.scope, r);
      if k.Tracked? {
        RestOfTrack(k, s, r);
        TracksSettled(k, s, r);
        q, kf := OutermostAlone(k, s, r, e.callee.name);
      }
      ClosedParts(r, q);
      ghost var q2, kf2;
      assert forall i :: 0 <= i < |args| ==> ValueIn(args[i], q);
      v, q2, kf2 := Invoke(f, args, q, kf, x.values);
      ClosedTogether(r, q, q2);
      r2, k2 := r.Union(q2), BackFrom(k, kf2);
      NothingKnown(s, r2);
      if kf2.Tracked? {
        TracksBack(k, s, r2, kf2, q2);
        InvokeCase(k, kf, script, calls, e, x);
      }
    }

    /** A call of something that is not a known function. */
    method CallOther(e: Expr, args: seq<FlowValue>, joined: FlowValue, s: FlowScope, ghost r: Region, ghost k: Track,
                     ghost x: Outcomes)
      returns (v: FlowValue, ghost r2: Region, ghost k2: Track)
      requires Closed(r) && s in r.scopes && Tracks(k, s, r) && |flows| <= MAX_FLOWS && e.Call?
      requires (forall i :: 0 <= i < |args| ==> ValueIn(args[i], r)) && ValueIn(joined, r)
      requires k.Tracked? ==>
                 Callable(k.Names(), e.callee) && ListDelivered(args, joined, flows, k, x) && x.after.vars != []
      modifies this`flows, this`steps, this`depth, this`calls, this`problem, r.scopes`values
      ensures Kept(r, r2) && Closed(r2) && ValueIn(v, r2) && Tracks(k2, s, r2) && Follows(k2, k, problem)
      ensures k2.Tracked? ==> Delivered(v, flows, k2, AbsCallAfter(k.In(script, calls), e, x))
      decreases Fuel(), 5
    {
      hide Closed; hide Tracks; hide AbsExpr; hide AbsKind; hide Join; hide JoinAll; hide AbsSinkCall;
      hide AbsMethodSink; hide GlobalPath; hide NamesFrom; hide SourceAt; hide TrimWindow; hide StorageObject;
      hide Callable;
      var m := Member(e.callee);
      if m.None? {
        v, r2, k2 := CallPath(e, args, joined, s, r, k, x.values);
      } else {
        v, r2, k2 := CallMember(e, m.value.0, m.value.1, args, joined, s, r, k, x);
      }
    }

    /** A call of a property: an input may be read, a sink reached; otherwise the object's sources are kept. */
    method CallMember(e: Expr, target: Expr, name: string, args: seq<FlowValue>, joined: FlowValue, s: FlowScope,
                      ghost r: Region, ghost k: Track, ghost x: Outcomes)
      returns (v: FlowValue, ghost r2: Region, ghost k2: Track)
      requires Closed(r) && s in r.scopes && Tracks(k, s, r) && |flows| <= MAX_FLOWS && e.Call?
      requires Member(e.callee) == Some((target, name))
      requires (forall i :: 0 <= i < |args| ==> ValueIn(args[i], r)) && ValueIn(joined, r)
      requires k.Tracked? ==>
                 Callable(k.Names(), e.callee) && ListDelivered(args, joined, flows, k, x) && x.after.vars != []
      modifies this`flows, this`steps, this`depth, this`calls, this`problem, r.scopes`values
      ensures Kept(r, r2) && Closed(r2) && ValueIn(v, r2) && Tracks(k2, s, r2) && Follows(k2, k, problem)
      ensures k2.Tracked? ==> Delivered(v, flows, k2, AbsCallAfter(k.In(script, calls), e, x))
      decreases Fuel(), 4
    {
      hide Closed; hide Tracks; hide AbsExpr; hide AbsKind; hide Join; hide JoinAll; hide AbsSinkCall;
      hide AbsMethodSink; hide GlobalPath; hide NamesFrom; hide SourceAt; hide TrimWindow; hide StorageObject;
      hide Callable; hide Parameters; hide NamedFunction; hide PlainArgs; hide LiteralKey; hide Clash;
      if k.Tracked? {
        TargetOf(k, e.callee, target, name);
      }
      var receiver;
      receiver, r2, k2 := Callee(target, s, r, k);
      var input := ReadInput(e, target, name, receiver, s, r2, k2);
      if input.Some? {
        return input.value, r2, k2;
      }
      v, r2, k2 := MethodCall(e, name, args, joined, receiver, s, r2, k2, x.values);
    }

    /** A method call that reads no input: its own sinks, then those of its path. */
    method MethodCall(e: Expr, name: string, args: seq<FlowValue>, joined: FlowValue, receiver: FlowValue, s: FlowScope,
                      ghost r: Region, ghost k: Track, ghost values: seq<seq<Source>>)
      returns (v: FlowValue, ghost r2: Region, ghost k2: Track)
      requires Closed(r) && s in r.scopes && Tracks(k, s, r) && |flows| <= MAX_FLOWS && e.Call?
      requires (forall i :: 0 <= i < |args| ==> ValueIn(args[i], r)) && ValueIn(joined, r) && ValueIn(receiver, r)
      requires k.Tracked? ==> PlainArgs(args, values)
      modifies this`flows, this`steps, this`depth, this`calls, this`problem, r.scopes`values
      ensures Kept(r, r2) && Closed(r2) && ValueIn(v, r2) && Tracks(k2, s, r2) && Follows(k2, k, problem)
      ensures k2.Tracked? ==>
        var cfg, a := k.In(script, calls), Abs(k.vars, old(flows));
        && v == JoinedValue(joined, receiver)
        && Abs(k2.vars, flows)
           == AbsSinkCall(cfg, e.at, GlobalPath(e.callee, Bound(k.vars)), values, v.sources,
                          AbsMethodSink(cfg, e.at, name, LiteralKey(e.args), values, a))
      decreases Fuel(), 3
    {
      hide Closed; hide Tracks; hide AbsSinkCall; hide AbsMethodSink; hide GlobalPath; hide PlainArgs; hide LiteralKey;
      hide Clash; hide Join;
      NothingKnown(s, r);
      var key := FirstLiteral(e.args);
      MethodSinks(e.at, name, key, args, values, k.In(script, calls));
      var value := JoinValues(joined, receiver);
      v, r2, k2 := CallPath(e, args, value, s, r, Stopped(k, problem), values);
    }

    /** The object whose method is called may be evaluated on its own, and names no function. */
    lemma TargetOf(k: Track, callee: Expr, target: Expr, name: string)
      requires Callable(k.Names(), callee) && Member(callee) == Some((target, name))
      ensures Callable(k.Names(), target) || Parameters(k.Names(), target)
      ensures NamedFunction(target, k) == null
    {
      assert callee.Dot? || callee.Bracket?;
      assert callee.left == target && Root(callee) == Root(target);
    }

    /** A call that reads an input under a literal key: a query parameter or a storage entry. */
    method ReadInput(e: Expr, target: Expr, name: string, receiver: FlowValue, s: FlowScope, ghost r: Region,
                     ghost k: Track)
      returns (v: Option<FlowValue>)
      requires Closed(r) && s in r.scopes && Tracks(k, s, r) && e.Call?
      ensures v.Some? ==> v.value.fn == null
      ensures
        var key, storage := LiteralKey(e.args), TrimWindow(GlobalPath(target, NamesFrom(s, r)));
        v == if key.None? then None
             else if name == "get" && (receiver.params == "query" || receiver.params == "fragment")
             then Some(Plain(SourceAt(script, e.at, receiver.params, key.value)))
             else if name == "getItem" && StorageObject(storage)
                 then Some(Plain(SourceAt(script, e.at, storage, key.value)))
             else None
      ensures k.Tracked? ==>
        var cfg, key := k.In(script, calls), LiteralKey(e.args);
        var storage := TrimWindow(GlobalPath(target, Bound(k.vars)));
        v == if key.None? then None
             else if name == "get" && (receiver.params == "query" || receiver.params == "fragment")
             then Some(Plain(SourceAt(cfg, e.at, receiver.params, key.value)))
             else if name == "getItem" && StorageObject(storage)
                 then Some(Plain(SourceAt(cfg, e.at, storage, key.value)))
             else None
    {
      hide GlobalPath; hide NamesFrom; hide TrimWindow; hide StorageObject; hide SourceAt; hide Tracks; hide Closed;
      var key := FirstLiteral(e.args);
      v := None;
      if key.Some? {
        if name == "get" && (receiver.params == "query" || receiver.params == "fragment") {
          SourceAnywhere(k, script, calls, e.at, receiver.params, key.value);
          var input := SourceValue(e.at, receiver.params, key.value);
          return Some(input);
        }
        var path := PathOf(target, s, 0, r, k);
        var storage := StorageName(path);
        if name == "getItem" && storage.Some? {
          SourceAnywhere(k, script, calls, e.at, storage.value, key.value);
          var input := SourceValue(e.at, storage.value, key.value);
          return Some(input);
        }
      }
    }

    /** Sinks among the methods of an object. */
    method MethodSinks(at: Pos, name: string, key: Option<string>, args: seq<FlowValue>, ghost values: seq<seq<Source>>,
                       ghost cfg: Script)
      requires |flows| <= MAX_FLOWS && SameText(cfg, script)
      modifies this`flows, this`problem
      ensures |flows| <= MAX_FLOWS && old(flows) <= flows && (old(problem) != "" ==> problem != "")
      ensures problem == "" && PlainArgs(args, values) ==>
        forall a: Abs :: a.flows == old(flows) ==> AbsMethodSink(cfg, at, name, key, values, a) == a.(flows := flows)
    {
      hide Record;
      if name == "insertAdjacentHTML" && |args| > 1 {
        RecordAnywhere(cfg, script, flows, at, name, args[1].sources);
        Sink(at, name, args[1]);
      }
      if name == "setAttribute" && |args| > 1 {
        if key.Some? && ("on" <= script.lower(key.value) || script.equalFold(key.value, "srcdoc")) {
          RecordAnywhere(cfg, script, flows, at, "setAttribute(" + script.lower(key.value) + ")", args[1].sources);
          Sink(at, "setAttribute(" + script.lower(key.value) + ")", args[1]);
        }
      }
    }

    /** Sinks among the functions that a path names. */
    method PathSinks(at: Pos, path: string, args: seq<FlowValue>, value: FlowValue, ghost values: seq<seq<Source>>,
                     ghost cfg: Script)
      requires |flows| <= MAX_FLOWS && SameText(cfg, script)
      modifies this`flows, this`problem
      ensures |flows| <= MAX_FLOWS && old(flows) <= flows && (old(problem) != "" ==> problem != "")
      ensures problem == "" && PlainArgs(args, values) ==>
        forall a: Abs :: a.flows == old(flows) ==>
          AbsSinkCall(cfg, at, path, values, value.sources, a) == a.(flows := flows)
    {
      hide Record; hide SinkFunction; hide TimerFunction;
      var sink := IsSink(path);
      var timer := IsTimer(path);
      if sink {
        RecordAnywhere(cfg, script, flows, at, path, value.sources);
        Sink(at, path, value);
      } else if timer && |args| > 0 {
        RecordAnywhere(cfg, script, flows, at, path, args[0].sources);
        Sink(at, path, args[0]);
      }
    }

    /** The sinks that a path names, and functions handed over as arguments, which may be called back. */
    method CallPath(e: Expr, args: seq<FlowValue>, value: FlowValue, s: FlowScope, ghost r: Region, ghost k: Track,
                    ghost values: seq<seq<Source>>)
      returns (v: FlowValue, ghost r2: Region, ghost k2: Track)
      requires Closed(r) && s in r.scopes && Tracks(k, s, r) && |flows| <= MAX_FLOWS && e.Call?
      requires (forall i :: 0 <= i < |args| ==> ValueIn(args[i], r)) && ValueIn(value, r)
      requires k.Tracked? ==> PlainArgs(args, values)
      modifies this`flows, this`steps, this`depth, this`calls, this`problem, r.scopes`values
      ensures Kept(r, r2) && Closed(r2) && ValueIn(v, r2) && Tracks(k2, s, r2) && Follows(k2, k, problem) && v == value
      ensures k2.Tracked? ==>
        Abs(k2.vars, flows)
            == AbsSinkCall(k.In(script, calls), e.at, GlobalPath(e.callee, Bound(k.vars)), values, value.sources,
                           Abs(k.vars, old(flows)))
      decreases Fuel(), 2
    {
      hide Closed; hide Tracks; hide AbsSinkCall; hide GlobalPath; hide NamesFrom;
      v := value;
      var path := PathOf(e.callee, s, 0, r, k);
      PathSinks(e.at, path, args, value, values, k.In(script, calls));
      label Marked:
      assert Closed(r) && Tracks(k, s, r);
      ghost var kf;
      r2, kf := Callbacks(args, r, 0, Untracked);
      NothingKnown(s, r2);
      k2 := Stopped(k, problem);
    }

    /**
     * Invokes the functions among the arguments of a call, without arguments of their own. If the one
     * called `j` is the only one, in the fragment and closing over a tracked chain (`kf`), what it does is
     * what the specification says.
     */
    method Callbacks(args: seq<FlowValue>, ghost r: Region, ghost j: nat, ghost kf: Track)
      returns (ghost r2: Region, ghost kf2: Track)
      requires Closed(r) && |flows| <= MAX_FLOWS && forall i :: 0 <= i < |args| ==> ValueIn(args[i], r)
      requires kf.Tracked? ==>
                 && j < |args| && args[j].fn != null && args[j].fn.scope != null
                 && Tracks(kf, args[j].fn.scope, r) && DirectFunction(kf.Names(), Text(args[j].fn))
                 && forall i :: 0 <= i < |args| && i != j ==> args[i].fn == null
      modifies this`flows, this`steps, this`depth, this`calls, this`problem, r.scopes`values
      ensures Kept(r, r2) && Closed(r2) && Follows(kf2, kf, problem)
      ensures (forall i :: 0 <= i < |args| ==> args[i].fn == null) ==>
        r2 == r && flows == old(flows) && problem == old(problem) && unchanged(r.scopes)
      ensures kf2.Tracked? ==>
        && calls < MAX_CALLS
        && Abs(kf2.vars, flows)
           == AbsFunction(kf.In(script, calls), Text(args[j].fn), [], Abs(kf.vars, old(flows))).after
      decreases Fuel(), 1
    {
      hide Closed; hide Tracks; hide AbsFunction; hide DirectFunction;
      r2, kf2 := r, Stopped(kf, problem);
      var i := 0;
      while i < |args|
        invariant 0 <= i <= |args| && Kept(r, r2) && Closed(r2) && Follows(kf2, kf, problem)
        invariant (forall j :: 0 <= j < i ==> args[j].fn == null) ==>
          r2 == r && flows == old(flows) && problem == old(problem) && unchanged(r.scopes)
        invariant kf2.Tracked? && i <= j ==> kf2 == kf && r2 == r && flows == old(flows) && unchanged(r.scopes)
        invariant kf2.Tracked? && i > j ==>
          && calls < MAX_CALLS
          && Abs(kf2.vars, flows)
             == AbsFunction(kf.In(script, calls), Text(args[j].fn), [], Abs(kf.vars, old(flows))).after
      {
        if args[i].fn != null {
          var ignored;
          FunctionScopeIn(args[i].fn, r2);
          NothingKnown(args[i].fn.scope, r2);
          ghost var k1 := if kf2.Tracked? && i == j then kf else Untracked;
          ignored, r2, k1 := Invoke(args[i].fn, [], r2, k1, []);
          kf2 := if kf2.Tracked? && i == j then k1 else Stopped(kf2, problem);
        }
        i := i + 1;
      }
    }

    /**
     * Analyses the body of a function with the given arguments bound to its parameters. If the chain it
     * closes over is tracked and it is in the fragment, the flows, the variables of that chain and the value
     * are those of its body in a scope that binds the parameters.
     */
    method Invoke(f: FlowFunction, args: seq<FlowValue>, ghost r: Region, ghost k: Track,
                  ghost values: seq<seq<Source>>)
      returns (v: FlowValue, ghost r2: Region, ghost k2: Track)
      requires Closed(r) && f in r.functions && |flows| <= MAX_FLOWS
               && forall i :: 0 <= i < |args| ==> ValueIn(args[i], r)
      requires f.scope != null && Tracks(k, f.scope, r)
      requires k.Tracked? ==> PlainArgs(args, values) && DirectFunction(k.Names(), Text(f))
      modifies this`flows, this`steps, this`depth, this`calls, this`problem, r.scopes`values
      ensures Kept(r, r2) && Closed(r2) && ValueIn(v, r2) && Tracks(k2, f.scope, r2) && Follows(k2, k, problem)
      ensures k2.Tracked? ==>
        && calls < MAX_CALLS
        && Delivered(v, flows, k2, AbsFunction(k.In(script, calls), Text(f), values, Abs(k.vars, old(flows))))
      decreases Fuel(), 0
    {
      hide Closed; hide Tracks; hide AbsBody; hide DirectBody; hide PlainArgs; hide AbsParameters;
      calls := calls + 1;
      var ok := Tick();
      v, r2, k2 := Nothing, r, Untracked;
      NothingKnown(f.scope, r);
      if ok {
        v, r2, k2 := RunBody(f, args, r, k, values);
        if k2.Tracked? {
          OneCallFewer(k, script, calls);
        }
      }
      calls := calls - 1;
    }

    /** The setting inside one more call. */
    lemma OneCallFewer(k: Track, script: Script, calls: int)
      requires k.Tracked? && calls <= MAX_CALLS
      ensures var cfg := k.In(script, calls - 1);
              cfg.calls > 0 && k.In(script, calls) == cfg.(calls := cfg.calls - 1)
    {
    }

    method RunBody(f: FlowFunction, args: seq<FlowValue>, ghost r: Region, ghost k: Track,
                   ghost values: seq<seq<Source>>)
      returns (v: FlowValue, ghost r2: Region, ghost k2: Track)
      requires Closed(r) && f in r.functions && |flows| <= MAX_FLOWS
               && forall i :: 0 <= i < |args| ==> ValueIn(args[i], r)
      requires f.scope != null && Tracks(k, f.scope, r)
      requires k.Tracked? ==>
                 && PlainArgs(args, values) && DirectFunction(k.Names(), Text(f)) && DirectBody(k.Names(), f.body)
      modifies this`flows, this`steps, this`depth, this`calls, this`problem, r.scopes`values
      ensures Kept(r, r2) && Closed(r2) && ValueIn(v, r2) && Tracks(k2, f.scope, r2) && Follows(k2, k, problem)
      ensures k2.Tracked? ==>
        var x := AbsBody(k.In(script, calls).(around := |k.vars|), f.body,
                         Abs([AbsParameters(f.params, values)] + k.vars, old(flows)));
        v == Plain(x.value) && flows == x.after.flows && k2.vars == x.after.vars[1..]
      decreases Fuel(), 6
    {
      hide Closed; hide Tracks; hide AbsBody; hide DirectFunction; hide DirectBody; hide AbsParameters; hide PlainArgs;
      hide WithParameters; hide Holding;
      FunctionScopeIn(f, r);
      TracksHere(k, f.scope, r);
      var s, r1 := Nested(f.scope, true, r);
      BindParameters(f.params, args, s, r1);
      ghost var names := AbsParameters(f.params, values);
      if k.Tracked? {
        ParametersHold(f.params, args, values);
        ParametersApart(k.Names(), Text(f), values);
      }
      ghost var k1 := NestedTrack(s, f.scope, k, r, r1, names);
      v, r2, k2 := Body(f.body, s, r1, k1);
      ParentsOf(s, r2);
      OuterTracks(k2, s, r2, if k.Tracked? then k.around else 0);
      k2 := Outer(k2, if k.Tracked? then k.around else 0);
    }

    lemma ParametersApart(names: set<string>, f: Fn, values: seq<seq<Source>>)
      requires DirectFunction(names, f)
      ensures AbsParameters(f.params, values).Keys !! names
    {
      ParameterNames(f.params, values, names);
    }

    /** The body of a function: a list of statements, or the expression of an arrow function. */
    method Body(body: Body, s: FlowScope, ghost r: Region, ghost k: Track)
      returns (v: FlowValue, ghost r2: Region, ghost k2: Track)
      requires Closed(r) && s in r.scopes && Tracks(k, s, r) && |flows| <= MAX_FLOWS
      requires k.Tracked? ==> DirectBody(k.Names(), body) && k.vars != []
      modifies this`flows, this`steps, this`depth, this`calls, this`problem, r.scopes`values
      ensures Kept(r, r2) && Closed(r2) && ValueIn(v, r2) && Tracks(k2, s, r2) && Follows(k2, k, problem)
      ensures k2.Tracked? ==>
        Delivered(v, flows, k2, AbsBody(k.In(script, calls), body, Abs(k.vars, old(flows))))
      decreases Fuel(), 5
    {
      hide Closed; hide Tracks; hide AbsExpr; hide AbsStmts; hide AbsReturned; hide Direct; hide DirectStmts;
      hide AtOutset; hide DeliveredAs;
      match body {
        case BlockBody(list) =>
          v, r2, k2 := List(list, s, r, k);
        case ExpressionBody(value) =>
          v, r2, k2 := Expression(value, s, r, k);
      }
    }

    lemma FunctionScopeIn(f: FlowFunction, r: Region)
      requires Closed(r) && f in r.functions
      ensures f.scope != null && f.scope in r.scopes
    {
    }

    /** A new, empty scope inside `s`. */
    method Nested(s: FlowScope, isFunction: bool, ghost r: Region) returns (b: FlowScope, ghost r2: Region)
      requires Closed(r) && s in r.scopes
      ensures r2 == Region(r.scopes + {b}, r.functions) && fresh(b) && Closed(r2)
      ensures b.parent == s && b.values == map[] && b.isFunction == isFunction && b.depth == s.depth + 1
    {
      b := new FlowScope(s, isFunction);
      r2 := Region(r.scopes + {b}, r.functions);
      assert forall q :: q in r.scopes ==> old(ParentIn(q, r));
    }

    /** Binds the named parameters; missing arguments are unknown values. */
    method BindParameters(params: seq<Target>, args: seq<FlowValue>, s: FlowScope, ghost r: Region)
      requires Closed(r) && s in r.scopes && forall i :: 0 <= i < |args| ==> ValueIn(args[i], r)
      modifies s`values
      ensures Closed(r) && s.values == WithParameters(old(s.values), params, args)
    {
      hide Closed;
      var i := 0;
      while i < |params|
        invariant Closed(r) && 0 <= i <= |params| && s.values == WithParameters(old(s.values), params[..i], args)
      {
        assert params[..i + 1][..i] == params[..i];
        if params[i].Named? {
          SetValue(s, params[i].name, if i < |args| then args[i] else Nothing, r);
        }
        i := i + 1;
      }
      assert params[..|params|] == params;
    }

    // -------------------------------------------------------------------------------------------
    // Statements
    // -------------------------------------------------------------------------------------------

    /**
     * A statement list: function declarations first, then every statement in turn. At the outset of a
     * program of the fragment, what is computed is what the specification says of the whole program.
     */
    method List(list: seq<Stmt>, s: FlowScope, ghost r: Region, ghost k: Track)
      returns (v: FlowValue, ghost r2: Region, ghost k2: Track)
      requires Closed(r) && s in r.scopes && Tracks(k, s, r) && |flows| <= MAX_FLOWS
      requires k.Tracked? ==> k.vars != [] && (DirectStmts(k.Names(), list) || AtOutset(k, list))
      modifies this`flows, this`steps, this`depth, this`calls, this`problem, r.scopes`values
      ensures Kept(r, r2) && Closed(r2) && ValueIn(v, r2) && Tracks(k2, s, r2)
      ensures k2.Tracked? <==> k.Tracked? && problem == ""
      ensures k2.Tracked? && DirectStmts(k.Names(), list) ==>
        Follows(k2, k, problem) && Delivered(v, flows, k2, ExpectedList(k.In(script, calls), list, k, old(flows)))
      ensures k2.Tracked? && AtOutset(k, list) && calls == 0 && old(flows) == [] ==>
        Abs(k2.vars, flows) == AbsProgram(script, list)
      decreases Fuel(), 4
    {
      hide Closed; hide Tracks; hide DirectStmt; hide DirectStmts; hide AtOutset; hide AbsStmts; hide AbsReturned;
      v, k2 := Nothing, Untracked;
      ghost var k1;
      r2, k1 := Declarations(list, s, r, k);
      NothingKnown(s, r2);
      if problem != "" {
        return;
      }
      v, r2, k2 := Statements(list, s, r2, k1);
      if k2.Tracked? && AtOutset(k, list) && calls == 0 && old(flows) == [] {
        ProgramSetting(k, k1, script, list);
      }
    }

    /** Function declarations first: what is known after them. */
    method Declarations(list: seq<Stmt>, s: FlowScope, ghost r: Region, ghost k: Track)
      returns (ghost r2: Region, ghost k2: Track)
      requires Closed(r) && s in r.scopes && Tracks(k, s, r) && |flows| <= MAX_FLOWS
      requires k.Tracked? ==> k.vars != [] && (DirectStmts(k.Names(), list) || AtOutset(k, list))
      modifies this`steps, this`problem, s`values
      ensures Kept(r, r2) && Closed(r2) && r2.scopes == r.scopes && Tracks(k2, s, r2) && flows == old(flows)
      ensures k2.Tracked? <==> k.Tracked? && problem == ""
      ensures k2.Tracked? ==>
        && k2.line == k.line && k2.vars != [] && (forall i :: 0 <= i < |list| ==> DirectStmt(k2.Names(), list[i]))
        && (DirectStmts(k.Names(), list) ==> k2 == k)
        && (AtOutset(k, list) ==>
              k2 == Tracked(k.line, Hoisted(EMPTY.vars, list), k2.funs, 0) && Texts(k2.funs) == Declared(list))
      decreases Fuel(), 3
    {
      hide Closed; hide Tracks; hide DirectStmt; hide DirectStmts; hide AtOutset; hide Texts; hide FunctionValues;
      ghost var funs;
      if k.Tracked? && AtOutset(k, list) {
        OutsetIsEmpty(k, s, r, list);
      }
      r2, funs := Hoist(list, s, r);
      NothingKnown(s, r2);
      k2 := Untracked;
      if k.Tracked? && problem == "" {
        if DirectStmts(k.Names(), list) {
          NothingHoisted(k, list, funs);
          TracksWithin(k, s, r, r2);
          k2 := k;
        } else {
          JustFunctions(funs);
          OutsetTrack(k, s, r2, list, funs);
          k2 := Tracked(k.line, Hoisted(EMPTY.vars, list), funs, 0);
        }
      }
    }

    lemma JustFunctions(funs: map<string, FlowFunction>)
      ensures map[] + FunctionValues(funs) == FunctionValues(funs)
    {
    }

    /** The statements of a list in turn. */
    method Statements(list: seq<Stmt>, s: FlowScope, ghost r: Region, ghost k: Track)
      returns (v: FlowValue, ghost r2: Region, ghost k2: Track)
      requires Closed(r) && s in r.scopes && Tracks(k, s, r) && |flows| <= MAX_FLOWS
      requires k.Tracked? ==> k.vars != [] && forall i :: 0 <= i < |list| ==> DirectStmt(k.Names(), list[i])
      modifies this`flows, this`steps, this`depth, this`calls, this`problem, r.scopes`values
      ensures Kept(r, r2) && Closed(r2) && ValueIn(v, r2) && Tracks(k2, s, r2) && Follows(k2, k, problem)
      ensures Delivered(v, flows, k2, ExpectedList(k.In(script, calls), list, k, old(flows)))
      decreases Fuel(), 3
    {
      hide Closed; hide Tracks; hide AbsStmt; hide AbsStmts; hide AbsReturned; hide AbsGiven; hide DirectStmt;
      hide Join;
      v, r2, k2 := Nothing, r, Stopped(k, problem);
      NothingKnown(s, r);
      if k.Tracked? {
        NoStatements(k.In(script, calls), list, k, flows);
      }
      var i := 0;
      while i < |list| && problem == ""
        invariant 0 <= i <= |list|
        invariant Kept(r, r2) && Closed(r2) && ValueIn(v, r2) && Tracks(k2, s, r2) && Follows(k2, k, problem)
        invariant k2.Tracked? ==> k2.vars != []
        invariant Delivered(v, flows, k2, ExpectedList(k.In(script, calls), list[..i], k, old(flows)))
        decreases |list| - i
      {
        if k.Tracked? {
          AbsStmtsNext(k.In(script, calls), list, Abs(k.vars, old(flows)), i);
        }
        v, r2, k2 := StatementJoined(v, list[i], s, r2, k2);
        i := i + 1;
      }
      assert problem == "" ==> list[..|list|] == list[..i] == list;
    }

    /** Analyses a statement and joins its value with those before it. */
    method StatementJoined(before: FlowValue, st: Stmt, s: FlowScope, ghost r: Region, ghost k: Track)
      returns (v: FlowValue, ghost r2: Region, ghost k2: Track)
      requires Closed(r) && s in r.scopes && Tracks(k, s, r) && |flows| <= MAX_FLOWS && ValueIn(before, r)
      requires k.Tracked? ==> DirectStmt(k.Names(), st) && k.vars != [] && before == Plain(before.sources)
      modifies this`flows, this`steps, this`depth, this`calls, this`problem, r.scopes`values
      ensures Kept(r, r2) && Closed(r2) && ValueIn(v, r2) && Tracks(k2, s, r2) && Follows(k2, k, problem)
      ensures var x := ExpectedStmt(k.In(script, calls), st, k, old(flows));
              Delivered(v, flows, k2, x.(value := Join(before.sources, x.value)))
      decreases Fuel(), 1
    {
      hide Closed; hide Tracks; hide ExpectedStmt; hide DirectStmt; hide Join;
      v, r2, k2 := Statement(st, s, r, k);
      v := JoinValues(before, v);
      NothingKnown(s, r2);
      k2 := Stopped(k2, problem);
    }

    /**
     * Declares the functions of a statement list, so that they are known before their source position:
     * `funs` holds them by their names.
     */
    method Hoist(list: seq<Stmt>, s: FlowScope, ghost r: Region)
      returns (ghost r2: Region, ghost funs: map<string, FlowFunction>)
      requires Closed(r) && s in r.scopes && |flows| <= MAX_FLOWS
      modifies this`steps, this`problem, s`values
      ensures Kept(r, r2) && Closed(r2) && r2.scopes == r.scopes
      ensures funs.Values <= r2.functions && forall n :: n in funs ==> fresh(funs[n]) && funs[n].scope == s
      ensures s.values == old(s.values) + FunctionValues(funs) && (funs == map[] ==> unchanged(s))
      ensures problem == "" ==> Texts(funs) == Declared(list)
      decreases Fuel(), 3
    {
      hide Closed; hide Declares; hide Declared; hide Texts; hide FunctionValues;
      r2, funs := r, map[];
      NoFunctions(list, s.values);
      var i := 0;
      while i < |list|
        invariant 0 <= i <= |list|
        invariant Kept(r, r2) && Closed(r2) && r2.scopes == r.scopes
        invariant funs.Values <= r2.functions
        invariant forall n :: n in funs ==> fresh(funs[n]) && funs[n].scope == s
        invariant s.values == old(s.values) + FunctionValues(funs) && Texts(funs) == Declared(list[..i])
        invariant funs == map[] ==> unchanged(s)
      {
        var ok := Tick();
        if !ok {
          return;
        }
        ghost var f;
        r2, f := Declare(list[i], s, r2);
        OneMoreDeclared(list, i, funs, f);
        if Declares(list[i]).Some? {
          OneMoreFunction(old(s.values), funs, Declares(list[i]).value.0, f);
          funs := funs[Declares(list[i]).value.0 := f];
        }
        i := i + 1;
      }
      assert list[..|list|] == list;
    }

    lemma NoFunctions(list: seq<Stmt>, values: map<string, FlowValue>)
      ensures Texts(map[]) == Declared(list[..0]) && values + FunctionValues(map[]) == values
    {
    }

    lemma OneMoreDeclared(list: seq<Stmt>, i: nat, funs: map<string, FlowFunction>, f: FlowFunction?)
      requires i < |list| && Texts(funs) == Declared(list[..i])
      requires Declares(list[i]).Some? ==> f != null && Text(f) == Declares(list[i]).value.1
      ensures var d := Declares(list[i]);
              Declared(list[..i + 1]) == if d.Some? then Texts(funs[d.value.0 := f]) else Texts(funs)
    {
      hide Declares;
      assert list[..i + 1][..i] == list[..i];
    }

    /** Declares one function, exported or not; every other statement is left for later. */
    method Declare(st: Stmt, s: FlowScope, ghost r: Region) returns (ghost r2: Region, ghost f: FlowFunction?)
      requires Closed(r) && s in r.scopes
      modifies s`values
      ensures Closed(r2) && match Declares(st)
              case None => r2 == r && s.values == old(s.values)
              case Some((name, fn)) =>
                && f != null && fresh(f) && Text(f) == fn && f.scope == s
                && r2 == Region(r.scopes, r.functions + {f}) && s.values == old(s.values)[name := FlowValue([], "", f)]
    {
      hide Closed;
      r2, f := r, null;
      var declared := if st.Export? then st.decl else st;
      if declared.FunctionDecl? && declared.name.Some? {
        var v;
        v, r2 := Closure(declared.params, BlockBody(declared.list), s, r);
        f := v.fn;
        SetValue(s, declared.name.value, v, r2);
      }
    }

    /** One statement. */
    method Statement(st: Stmt, s: FlowScope, ghost r: Region, ghost k: Track)
      returns (v: FlowValue, ghost r2: Region, ghost k2: Track)
      requires Closed(r) && s in r.scopes && Tracks(k, s, r) && |flows| <= MAX_FLOWS
      requires k.Tracked? ==> DirectStmt(k.Names(), st) && k.vars != []
      modifies this`flows, this`steps, this`depth, this`calls, this`problem, r.scopes`values
      ensures Kept(r, r2) && Closed(r2) && ValueIn(v, r2) && Tracks(k2, s, r2) && Follows(k2, k, problem)
      ensures Delivered(v, flows, k2, ExpectedStmt(k.In(script, calls), st, k, old(flows)))
      decreases Fuel(), 0
    {
      hide Closed; hide Tracks; hide AbsStmt; hide AbsGiven; hide DirectStmt;
      v, r2, k2 := Nothing, r, Stopped(k, problem);
      NothingKnown(s, r);
      if k.Tracked? {
        AbsStmtCases(k.In(script, calls), st, Abs(k.vars, flows));
        AbsGivenCases(k.In(script, calls), st, Abs(k.vars, flows));
      }
      if st.NoStmt? {
        return;
      }
      var ok := Tick();
      NothingKnown(s, r);
      k2 := Stopped(k, problem);
      if ok {
        v, r2, k2 := InspectStatement(st, s, r, k);
      }
    }

    /** The cases of a statement. */
    method InspectStatement(st: Stmt, s: FlowScope, ghost r: Region, ghost k: Track)
      returns (v: FlowValue, ghost r2: Region, ghost k2: Track)
      requires Closed(r) && s in r.scopes && Tracks(k, s, r) && |flows| <= MAX_FLOWS
      requires k.Tracked? ==> DirectStmt(k.Names(), st) && k.vars != []
      modifies this`flows, this`steps, this`depth, this`calls, this`problem, r.scopes`values
      ensures Kept(r, r2) && Closed(r2) && ValueIn(v, r2) && Tracks(k2, s, r2) && Follows(k2, k, problem)
      ensures Delivered(v, flows, k2, ExpectedStmt(k.In(script, calls), st, k, old(flows)))
      decreases Fuel(), 7
    {
      hide Closed; hide Tracks; hide AbsExpr; hide AbsStmt; hide AbsStmts; hide AbsGiven; hide AbsReturned;
      hide AbsIf; hide AbsWhile; hide AbsBindings; hide Direct; hide DirectStmt; hide DirectStmts;
      if k.Tracked? {
        AbsStmtCases(k.In(script, calls), st, Abs(k.vars, flows));
        AbsGivenCases(k.In(script, calls), st, Abs(k.vars, flows));
        DirectStmtCases(k.Names(), st);
      }
      v, r2, k2 := Nothing, r, Stopped(k, problem);
      NothingKnown(s, r);
      if st.ExprStmt? {
        var ignored;
        ignored, r2, k2 := Expression(st.value, s, r, k);
      } else if st.Export? {
        v, r2, k2 := ExportStmt(st, s, r, k);
      } else if st.VarDecl? || st.LexicalDecl? {
        r2, k2 := Declaration(st, s, r, k);
      } else if st.Return? {
        v, r2, k2 := Expression(st.value, s, r, k);
      } else if st.Block? {
        v, r2, k2 := BlockStmt(st.list, s, r, k);
      } else if st.If? {
        v, r2, k2 := IfStmt(st, s, r, k);
      } else if st.While? {
        v, r2, k2 := WhileStmt(st, s, r, k);
      }
    }

    /** What an export exports; functions have been declared already. */
    method ExportStmt(st: Stmt, s: FlowScope, ghost r: Region, ghost k: Track)
      returns (v: FlowValue, ghost r2: Region, ghost k2: Track)
      requires Closed(r) && s in r.scopes && Tracks(k, s, r) && |flows| <= MAX_FLOWS
      requires k.Tracked? ==> DirectStmt(k.Names(), st) && k.vars != []
      requires st.Export?
      modifies this`flows, this`steps, this`depth, this`calls, this`problem, r.scopes`values
      ensures Kept(r, r2) && Closed(r2) && ValueIn(v, r2) && Tracks(k2, s, r2) && Follows(k2, k, problem)
      ensures Delivered(v, flows, k2, ExpectedStmt(k.In(script, calls), st, k, old(flows)))
      decreases Fuel(), 6
    {
      hide Closed; hide Tracks; hide AbsExpr; hide AbsStmt; hide AbsStmts; hide AbsGiven; hide Direct; hide DirectStmt;
      hide AbsBindings;
      if k.Tracked? {
        AbsStmtCases(k.In(script, calls), st, Abs(k.vars, flows));
        AbsGivenCases(k.In(script, calls), st, Abs(k.vars, flows));
        AbsGivenCases(k.In(script, calls), st.decl, Abs(k.vars, flows));
        DirectStmtCases(k.Names(), st);
      }
      v, r2, k2 := Nothing, r, Stopped(k, problem);
      NothingKnown(s, r);
      if st.decl.VarDecl? || st.decl.LexicalDecl? {
        v, r2, k2 := Statement(st.decl, s, r, k);
      } else if st.decl.ExprStmt? {
        var ignored;
        ignored, r2, k2 := Expression(st.decl.value, s, r, k);
      }
    }

    /** Declarations: `var` binds in the function scope, `let` and `const` in the innermost one. */
    method Declaration(st: Stmt, s: FlowScope, ghost r: Region, ghost k: Track)
      returns (ghost r2: Region, ghost k2: Track)
      requires Closed(r) && s in r.scopes && Tracks(k, s, r) && |flows| <= MAX_FLOWS
      requires k.Tracked? ==> DirectStmt(k.Names(), st) && k.vars != []
      requires st.VarDecl? || st.LexicalDecl?
      modifies this`flows, this`steps, this`depth, this`calls, this`problem, r.scopes`values
      ensures Kept(r, r2) && Closed(r2) && Tracks(k2, s, r2) && Follows(k2, k, problem)
      ensures k2.Tracked? ==> Abs(k2.vars, flows) == AbsStmt(k.In(script, calls), st, Abs(k.vars, old(flows)))
      decreases Fuel(), 6
    {
      hide Closed; hide Tracks; hide AbsExpr; hide AbsStmt; hide AbsStmts; hide Direct; hide DirectStmt;
      hide AbsBindings;
      if k.Tracked? {
        AbsStmtCases(k.In(script, calls), st, Abs(k.vars, flows));
        DirectStmtCases(k.Names(), st);
      }
      TracksHere(k, s, r);
      if st.VarDecl? {
        var decl := FunctionScope(s, r, k);
        r2, k2 := Bindings(st.bindings, s, decl, r, k,
                           if k.Tracked? && k.around < |k.line| then |k.line| - 1 - k.around else 0);
      } else {
        assert k.Tracked? ==> k.line[0] == s;
        r2, k2 := Bindings(st.bindings, s, s, r, k, 0);
      }
    }

    /** The function scope around a scope, or the outermost one. */
    method FunctionScope(s: FlowScope, ghost r: Region, ghost k: Track) returns (decl: FlowScope)
      requires Closed(r) && s in r.scopes && Tracks(k, s, r)
      ensures decl in r.scopes
      ensures k.Tracked? ==> k.around < |k.line| == s.depth + 1 && decl == k.line[s.depth - k.around]
    {
      decl := s;
      ghost var i := 0;
      ParentsOf(s, r);
      while !decl.isFunction && decl.parent != null
        invariant decl in r.scopes
        invariant k.Tracked? ==> 0 <= i <= s.depth - k.around && decl == k.line[i]
        decreases decl.depth
      {
        ParentsOf(decl, r);
        decl := decl.parent;
        i := i + 1;
      }
    }

    /** Binds names in `decl` to the values of their initializers; destructuring patterns are not tracked. */
    method Bindings(bs: seq<Binding>, s: FlowScope, decl: FlowScope, ghost r: Region, ghost k: Track, ghost level: nat)
      returns (ghost r2: Region, ghost k2: Track)
      requires Closed(r) && s in r.scopes && decl in r.scopes && Tracks(k, s, r) && |flows| <= MAX_FLOWS
      requires k.Tracked? ==> DirectBindings(k.Names(), bs) && level < |k.line| == |k.vars| && decl == k.line[level]
      modifies this`flows, this`steps, this`depth, this`calls, this`problem, r.scopes`values
      ensures Kept(r, r2) && Closed(r2) && Tracks(k2, s, r2) && Follows(k2, k, problem)
      ensures k2.Tracked? ==>
        Abs(k2.vars, flows) == AbsBindings(k.In(script, calls), bs, level, Abs(k.vars, old(flows)))
      decreases Fuel(), 5
    {
      hide Closed; hide Tracks; hide AbsExpr; hide Direct; hide AbsBindings;
      r2, k2 := r, Stopped(k, problem);
      NothingKnown(s, r);
      AbsBindingsNone(k.In(script, calls), bs, level, k, flows);
      var i := 0;
      while i < |bs|
        invariant 0 <= i <= |bs|
        invariant Kept(r, r2) && Closed(r2) && Tracks(k2, s, r2) && Follows(k2, k, problem)
        invariant k2.Tracked? ==>
          && |k2.vars| == |k.vars|
          && Abs(k2.vars, flows) == AbsBindings(k.In(script, calls), bs[..i], level, Abs(k.vars, old(flows)))
      {
        var ok := Tick();
        NothingKnown(s, r2);
        k2 := Stopped(k2, problem);
        if !ok {
          return;
        }
        if k.Tracked? {
          AbsBindingsNext(k.In(script, calls), bs, level, Abs(k.vars, old(flows)), i);
        }
        if bs[i].target.Named? {
          r2, k2 := BindOne(bs[i], s, decl, r2, k2, level);
        }
        i := i + 1;
      }
      assert bs[..|bs|] == bs;
    }

    method BindOne(b: Binding, s: FlowScope, decl: FlowScope, ghost r: Region, ghost k: Track, ghost level: nat)
      returns (ghost r2: Region, ghost k2: Track)
      requires Closed(r) && s in r.scopes && decl in r.scopes && Tracks(k, s, r) && |flows| <= MAX_FLOWS
               && b.target.Named?
      requires k.Tracked? ==>
                 && Direct(k.Names(), b.initializer) && b.target.name !in k.Names()
                 && level < |k.line| == |k.vars| && decl == k.line[level]
      modifies this`flows, this`steps, this`depth, this`calls, this`problem, r.scopes`values
      ensures Kept(r, r2) && Closed(r2) && Tracks(k2, s, r2) && Follows(k2, k, problem)
      ensures k2.Tracked? ==>
        var x := AbsExpr(k.In(script, calls), b.initializer, Abs(k.vars, old(flows)));
        && flows == x.after.flows && |x.after.vars| == |k.vars|
        && k2.vars == x.after.vars[level := x.after.vars[level][b.target.name := x.value]]
      decreases Fuel(), 1
    {
      hide Closed; hide Tracks; hide AbsExpr; hide Direct;
      var v;
      v, r2, k2 := Expression(b.initializer, s, r, k);
      Bind(decl, b.target.name, v, r2, k2, s, level);
      if k2.Tracked? {
        k2 := k2.(vars := k2.vars[level := k2.vars[level][b.target.name := v.sources]]);
      }
      NothingKnown(s, r2);
    }

    /** A block has a scope of its own. */
    method BlockStmt(list: seq<Stmt>, s: FlowScope, ghost r: Region, ghost k: Track)
      returns (v: FlowValue, ghost r2: Region, ghost k2: Track)
      requires Closed(r) && s in r.scopes && Tracks(k, s, r) && |flows| <= MAX_FLOWS
      requires k.Tracked? ==> DirectStmts(k.Names(), list) && k.vars != []
      modifies this`flows, this`steps, this`depth, this`calls, this`problem, r.scopes`values
      ensures Kept(r, r2) && Closed(r2) && ValueIn(v, r2) && Tracks(k2, s, r2) && Follows(k2, k, problem)
      ensures k2.Tracked? ==>
        var cfg, a := k.In(script, calls), Abs([map[]] + k.vars, old(flows));
        var inner := AbsStmts(cfg, list, a);
        v == Plain(AbsReturned(cfg, list, a)) && Abs(k2.vars, flows) == inner.(vars := inner.vars[1..])
      decreases Fuel(), 6
    {
      hide Closed; hide Tracks; hide AbsStmts; hide AbsReturned; hide DirectStmts; hide AtOutset;
      TracksHere(k, s, r);
      var b, r1 := Nested(s, false, r);
      NothingHeld();
      ghost var kb := NestedTrack(b, s, k, r, r1, map[]);
      v, r2, kb := List(list, b, r1, kb);
      ParentsOf(b, r2);
      OuterTracks(kb, b, r2, if k.Tracked? then k.around else 0);
      k2 := Outer(kb, if k.Tracked? then k.around else 0);
    }

    /** Both alternatives are analysed unless the test is a literal. */
    method IfStmt(st: Stmt, s: FlowScope, ghost r: Region, ghost k: Track)
      returns (v: FlowValue, ghost r2: Region, ghost k2: Track)
      requires Closed(r) && s in r.scopes && Tracks(k, s, r) && |flows| <= MAX_FLOWS
      requires k.Tracked? ==> DirectStmt(k.Names(), st) && k.vars != []
      requires st.If?
      modifies this`flows, this`steps, this`depth, this`calls, this`problem, r.scopes`values
      ensures Kept(r, r2) && Closed(r2) && ValueIn(v, r2) && Tracks(k2, s, r2) && Follows(k2, k, problem)
      ensures Delivered(v, flows, k2, ExpectedStmt(k.In(script, calls), st, k, old(flows)))
      decreases Fuel(), 6
    {
      hide Closed; hide Tracks; hide AbsExpr; hide AbsStmt; hide AbsGiven; hide Direct; hide DirectStmt; hide Join;
      hide MergeChain;
      if k.Tracked? {
        AbsStmtCases(k.In(script, calls), st, Abs(k.vars, flows));
        AbsGivenCases(k.In(script, calls), st, Abs(k.vars, flows));
        DirectStmtCases(k.Names(), st);
      }
      var test, r1, k1 := Expression(st.test, s, r, k);
      if st.test.BooleanLiteral? {
        v, r2, k2 := Statement(if st.test.truth then st.consequent else st.alternate, s, r1, k1);
      } else {
        v, r2, k2 := EitherStmt(st.consequent, st.alternate, s, r1, k1);
      }
    }

    /** Either of two statements: each works on its own copy, then both are merged. */
    method EitherStmt(yes: Stmt, no: Stmt, s: FlowScope, ghost r: Region, ghost k: Track)
      returns (v: FlowValue, ghost r2: Region, ghost k2: Track)
      requires Closed(r) && s in r.scopes && Tracks(k, s, r) && |flows| <= MAX_FLOWS
      requires k.Tracked? ==> DirectStmt(k.Names(), yes) && DirectStmt(k.Names(), no) && k.vars != []
      modifies this`flows, this`steps, this`depth, this`calls, this`problem, r.scopes`values
      ensures Kept(r, r2) && Closed(r2) && ValueIn(v, r2) && Tracks(k2, s, r2) && Follows(k2, k, problem)
      ensures k2.Tracked? ==>
        var cfg, a := k.In(script, calls), Abs(k.vars, old(flows));
        var x := AbsStmt(cfg, yes, a);
        var b := a.(flows := x.flows);
        var y := AbsStmt(cfg, no, b);
        && v == Plain(Join(AbsGiven(cfg, yes, a), AbsGiven(cfg, no, b)))
        && flows == y.flows && k2.vars == MergeChain(k.vars, x.vars, y.vars)
      decreases Fuel(), 3
    {
      hide Closed; hide Tracks; hide AbsStmt; hide AbsGiven; hide DirectStmt; hide MergeChain; hide Join; hide Plain;
      var left, right;
      ghost var ql, kl, qr, kr;
      v, left, ql, kl, right, qr, kr := AlternativeStmts(yes, no, s, r, k);
      NothingKnown(s, r);
      r2, k2 := RejoinTwo(s, left, right, r, ql, qr, Stopped(k, problem), kl, kr);
    }

    /** The two alternatives on their copies, with the scopes they started from left as they were. */
    method AlternativeStmts(yes: Stmt, no: Stmt, s: FlowScope, ghost r: Region, ghost k: Track)
      returns (v: FlowValue, left: FlowScope, ghost ql: Region, ghost kl: Track, right: FlowScope, ghost qr: Region,
               ghost kr: Track)
      requires Closed(r) && s in r.scopes && Tracks(k, s, r) && |flows| <= MAX_FLOWS
      requires k.Tracked? ==> DirectStmt(k.Names(), yes) && DirectStmt(k.Names(), no) && k.vars != []
      modifies this`flows, this`steps, this`depth, this`calls, this`problem
      ensures Kept(r, r) && fresh(ql.scopes) && fresh(ql.functions) && fresh(qr.scopes) && fresh(qr.functions)
      ensures Closed(ql) && left in ql.scopes && Tracks(kl, left, ql) && left.depth == s.depth
      ensures Closed(qr) && right in qr.scopes && Tracks(kr, right, qr) && right.depth == s.depth
      ensures ValueIn(v, ql.Union(qr)) && (kl.Tracked? <==> k.Tracked? && problem == "")
              && (kr.Tracked? <==> kl.Tracked?) && Twin(k, kl) && Twin(k, kr)
      ensures kl.Tracked? ==>
        var cfg, a := k.In(script, calls), Abs(k.vars, old(flows));
        var x := AbsStmt(cfg, yes, a);
        var b := a.(flows := x.flows);
        var y := AbsStmt(cfg, no, b);
        && v == Plain(Join(AbsGiven(cfg, yes, a), AbsGiven(cfg, no, b)))
        && flows == y.flows && kl.vars == x.vars && kr.vars == y.vars
      decreases Fuel(), 2
    {
      hide Closed; hide Tracks; hide AbsStmt; hide AbsGiven; hide DirectStmt; hide IsCopy; hide SameFunctions;
      hide Texts; hide Join; hide Plain;
      ghost var sl, fl, sr, fr;
      left, ql, kl, right, qr, kr, sl, fl, sr, fr := Branches(s, r, k);
      if kl.Tracked? {
        TwinsAgree(k, kl, script, calls);
      }
      v, ql, kl, qr, kr := BothStmts(yes, left, ql, kl, no, right, qr, kr);
    }

    /** The two alternatives, one after the other, each on its own copy of the scopes. */
    method BothStmts(yes: Stmt, left: FlowScope, ghost ql: Region, ghost kl: Track,
                     no: Stmt, right: FlowScope, ghost qr: Region, ghost kr: Track)
      returns (v: FlowValue, ghost ql2: Region, ghost kl2: Track, ghost qr2: Region, ghost kr2: Track)
      requires Closed(ql) && left in ql.scopes && Tracks(kl, left, ql) && |flows| <= MAX_FLOWS
      requires Closed(qr) && right in qr.scopes && Tracks(kr, right, qr) && ql.Apart(qr)
      requires Together(kl, kr)
               && (kl.Tracked? ==> DirectStmt(kl.Names(), yes) && DirectStmt(kl.Names(), no) && kl.vars != [])
      modifies this`flows, this`steps, this`depth, this`calls, this`problem, ql.scopes`values, qr.scopes`values
      ensures Kept(ql, ql2) && Closed(ql2) && Tracks(kl2, left, ql2)
      ensures Kept(qr, qr2) && Closed(qr2) && Tracks(kr2, right, qr2)
      ensures ValueIn(v, ql2.Union(qr2)) && Follows(kl2, kl, problem) && Follows(kr2, kr, problem)
      ensures kl2.Tracked? ==>
        var cfg, a := kl.In(script, calls), Abs(kl.vars, old(flows));
        var x := AbsStmt(cfg, yes, a);
        var b := a.(flows := x.flows);
        var y := AbsStmt(cfg, no, b);
        && v == Plain(Join(AbsGiven(cfg, yes, a), AbsGiven(cfg, no, b)))
        && flows == y.flows && kl2.vars == x.vars && kr2.vars == y.vars
      decreases Fuel(), 1
    {
      hide Closed; hide Tracks; hide AbsStmt; hide AbsGiven; hide DirectStmt; hide SameFunctions; hide Texts; hide Join;
      if kl.Tracked? {
        TwinsAgree(kl, kr, script, calls);
      }
      var v1, v2;
      v1, ql2, kl2 := Statement(yes, left, ql, kl);
      NothingKnown(right, qr);
      v2, qr2, kr2 := Statement(no, right, qr, Stopped(kr, problem));
      v := JoinValues(v1, v2);
      NothingKnown(left, ql2); NothingKnown(right, qr2);
      kl2, kr2 := Stopped(kl2, problem), Stopped(kr2, problem);
    }

    /** A loop: its body is analysed once, on a copy that is merged into the scopes as they were. */
    method WhileStmt(st: Stmt, s: FlowScope, ghost r: Region, ghost k: Track)
      returns (v: FlowValue, ghost r2: Region, ghost k2: Track)
      requires Closed(r) && s in r.scopes && Tracks(k, s, r) && |flows| <= MAX_FLOWS && st.While?
      requires k.Tracked? ==> DirectStmt(k.Names(), st) && k.vars != []
      modifies this`flows, this`steps, this`depth, this`calls, this`problem, r.scopes`values
      ensures Kept(r, r2) && Closed(r2) && ValueIn(v, r2) && Tracks(k2, s, r2) && Follows(k2, k, problem)
      ensures Delivered(v, flows, k2, ExpectedStmt(k.In(script, calls), st, k, old(flows)))
      decreases Fuel(), 6
    {
      hide Closed; hide Tracks; hide AbsExpr; hide AbsStmt; hide AbsGiven; hide Direct; hide DirectStmt;
      hide MergeChain;
      if k.Tracked? {
        AbsStmtCases(k.In(script, calls), st, Abs(k.vars, flows));
        AbsGivenCases(k.In(script, calls), st, Abs(k.vars, flows));
        DirectStmtCases(k.Names(), st);
      }
      var test, r1, k1 := Expression(st.test, s, r, k);
      if st.test.BooleanLiteral? && !st.test.truth {
        return Nothing, r1, k1;
      }
      v, r2, k2 := MaybeStmt(st.body, s, r1, k1);
    }

    /** A statement that runs or not: it works on a copy, which is merged into the scopes as they were. */
    method MaybeStmt(st: Stmt, s: FlowScope, ghost r: Region, ghost k: Track)
      returns (v: FlowValue, ghost r2: Region, ghost k2: Track)
      requires Closed(r) && s in r.scopes && Tracks(k, s, r) && |flows| <= MAX_FLOWS
      requires k.Tracked? ==> DirectStmt(k.Names(), st) && k.vars != []
      modifies this`flows, this`steps, this`depth, this`calls, this`problem, r.scopes`values
      ensures Kept(r, r2) && Closed(r2) && ValueIn(v, r2) && Tracks(k2, s, r2) && Follows(k2, k, problem)
      ensures k2.Tracked? ==>
        var cfg, a := k.In(script, calls), Abs(k.vars, old(flows));
        var x := AbsStmt(cfg, st, a);
        v == Plain(AbsGiven(cfg, st, a)) && flows == x.flows && k2.vars == MergeChain(k.vars, k.vars, x.vars)
      decreases Fuel(), 5
    {
      hide Closed; hide Tracks; hide AbsStmt; hide AbsGiven; hide DirectStmt; hide MergeChain; hide IsCopy;
      hide ChainValues; hide MergedChain; hide SameFunctions; hide Texts;
      var branch, q, kb, sm, fm := Branch(s, r, k);
      if kb.Tracked? {
        TwinsAgree(k, kb, script, calls);
      }
      v, q, kb := Statement(st, branch, q, kb);
      NothingKnown(s, r);
      r2, k2 := Rejoin(s, s, branch, r, q, Stopped(k, problem), Stopped(k, problem), kb);
    }
  }
}
