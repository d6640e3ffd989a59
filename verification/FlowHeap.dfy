/**
 * Scopes and function values of pkg/jsanalysis/flow.go: a heap graph with cycles, since a scope
 * holds the functions declared in it and a function holds the scope it closes over.
 */
module FlowHeap {
  import opened Prelude
  import opened FlowSyntax

  datatype FlowValue = FlowValue(sources: seq<Source>, params: string, fn: FlowFunction?)

  const Nothing: FlowValue := FlowValue([], "", null)

  class FlowScope {
    var values: map<string, FlowValue>
    var parent: FlowScope?
    const isFunction: bool
    ghost const depth: nat   // the number of scopes around this one

    constructor (parent: FlowScope?, isFunction: bool)
      ensures values == map[] && this.parent == parent && this.isFunction == isFunction
      ensures depth == if parent == null then 0 else parent.depth + 1
    {
      this.values := map[];
      this.parent := parent;
      this.isFunction := isFunction;
      this.depth := if parent == null then 0 else parent.depth + 1;
    }

    /** A scope that will mirror `original`; its parent is filled in later. */
    constructor Mirror(original: FlowScope)
      ensures values == map[] && parent == null && isFunction == original.isFunction && depth == original.depth
    {
      values := map[];
      parent := null;
      isFunction := original.isFunction;
      depth := original.depth;
    }
  }

  class FlowFunction {
    const params: seq<Target>
    const body: Body
    var scope: FlowScope?
    const origin: FlowFunction?   // the function this one is a branch copy of

    constructor (params: seq<Target>, body: Body, scope: FlowScope)
      ensures this.params == params && this.body == body && this.scope == scope && origin == null
    {
      this.params, this.body, this.scope, this.origin := params, body, scope, null;
    }

    /** A branch copy of `f`; its scope is filled in later. */
    constructor Copy(f: FlowFunction)
      ensures params == f.params && body == f.body && scope == null && origin == f.Identity()
    {
      params, body, scope, origin := f.params, f.body, null, f.Identity();
    }

    /** The function as the source text declares it, whatever branch copy this is. */
    function Identity(): FlowFunction {
      if origin != null then origin else this
    }
  }

  /** A set of scopes and functions. */
  datatype Region = Region(scopes: set<FlowScope>, functions: set<FlowFunction>) {
    ghost predicate Within(r: Region) {
      scopes <= r.scopes && functions <= r.functions
    }

    ghost function Union(r: Region): Region {
      Region(scopes + r.scopes, functions + r.functions)
    }

    ghost predicate Apart(r: Region) {
      scopes !! r.scopes && functions !! r.functions
    }
  }

  ghost predicate ValueIn(v: FlowValue, r: Region) {
    v.fn == null || v.fn in r.functions
  }

  ghost predicate ParentIn(s: FlowScope, r: Region)
    reads s
  {
    if s.parent == null then s.depth == 0 else s.parent in r.scopes && s.depth == s.parent.depth + 1
  }

  /** Nothing in the region refers to anything outside it, and parent chains have no cycles. */
  ghost predicate Closed(r: Region)
    reads r.scopes, r.functions
  {
    && (forall s :: s in r.scopes ==> ParentIn(s, r))
    && (forall s, n :: s in r.scopes && n in s.values ==> ValueIn(s.values[n], r))
    && (forall f :: f in r.functions ==> f.scope != null && f.scope in r.scopes)
  }

  lemma ClosedUnion(a: Region, b: Region)
    requires Closed(a) && Closed(b)
    ensures Closed(a.Union(b))
  {
    var u := a.Union(b);
    forall s | s in u.scopes ensures ParentIn(s, u) {
      if s in a.scopes {
        assert ParentIn(s, a);
      } else {
        assert ParentIn(s, b);
      }
    }
  }

  /** The tables of one copy: which scope and which function mirror which. */
  class Memo {
    var scopes: map<FlowScope, FlowScope>
    var functions: map<FlowFunction, FlowFunction>

    constructor ()
      ensures scopes == map[] && functions == map[]
    {
      scopes, functions := map[], map[];
    }
  }

  /** The value that mirrors `v`. */
  ghost predicate ValueMirrors(v: FlowValue, v': FlowValue, fm: map<FlowFunction, FlowFunction>) {
    if v.fn == null then v' == v
    else v.fn in fm && v' == v.(fn := fm[v.fn])
  }

  /** The variables `copy` holds mirror those of `original`; the names in `todo` are still missing. */
  ghost predicate MapMirrors(original: map<string, FlowValue>, copy: map<string, FlowValue>,
                             fm: map<FlowFunction, FlowFunction>, todo: set<string>)
  {
    && copy.Keys == original.Keys - todo
    && forall n :: n in copy ==> ValueMirrors(original[n], copy[n], fm)
  }

  ghost predicate ParentMirrors(s: FlowScope, c: FlowScope, sm: map<FlowScope, FlowScope>)
    reads s, c
  {
    if s.parent == null then c.parent == null else s.parent in sm && c.parent == sm[s.parent]
  }

  /** `c` is the copy of `s`; with `complete` no variable is missing in it. */
  ghost predicate ScopeMirrors(s: FlowScope, c: FlowScope, sm: map<FlowScope, FlowScope>,
                               fm: map<FlowFunction, FlowFunction>, complete: bool)
    reads s, c
  {
    && ParentMirrors(s, c, sm)
    && MapMirrors(s.values, c.values, fm, s.values.Keys - c.values.Keys)
    && (complete ==> s.values.Keys <= c.values.Keys)
  }

  ghost predicate FunctionMirrors(f: FlowFunction, g: FlowFunction, sm: map<FlowScope, FlowScope>)
    reads f, g
  {
    f.scope != null && f.scope in sm && g.scope == sm[f.scope]
  }

  ghost predicate Injective<T>(m: map<T, T>) {
    forall a, b :: a in m && b in m && a != b ==> m[a] != m[b]
  }

  /** The copies that are finished. */
  ghost function Done<T>(m: map<T, T>, open: set<T>): set<T> {
    set x | x in m && x !in open :: m[x]
  }

  /**
   * The state of a copy in progress from the region `r`: the scopes in `openS` and the functions in
   * `openF` are still being filled in, everything else in the tables is finished.
   */
  ghost predicate Copying(sm: map<FlowScope, FlowScope>, fm: map<FlowFunction, FlowFunction>, r: Region,
                          openS: set<FlowScope>, openF: set<FlowFunction>, complete: bool)
    reads r.scopes, r.functions, Done(sm, openS), Done(fm, openF)
  {
    && openS <= sm.Keys <= r.scopes && openF <= fm.Keys <= r.functions
    && sm.Values !! r.scopes && fm.Values !! r.functions
    && Injective(sm) && Injective(fm)
    && (forall s :: s in sm ==> sm[s].isFunction == s.isFunction && sm[s].depth == s.depth)
    && (forall f :: f in fm ==> fm[f].params == f.params && fm[f].body == f.body && fm[f].origin == f.Identity())
    && (forall s :: s in sm && s !in openS ==> ScopeMirrors(s, sm[s], sm, fm, complete))
    && (forall f :: f in fm && f !in openF ==> FunctionMirrors(f, fm[f], sm))
  }

  lemma OpenScope(sm: map<FlowScope, FlowScope>, fm: map<FlowFunction, FlowFunction>, r: Region,
                  openS: set<FlowScope>, openF: set<FlowFunction>, complete: bool, s: FlowScope, c: FlowScope)
    requires Copying(sm, fm, r, openS, openF, complete)
    requires s in r.scopes && s !in sm && c !in r.scopes && c !in sm.Values
    requires c.isFunction == s.isFunction && c.depth == s.depth
    ensures Copying(sm[s := c], fm, r, openS + {s}, openF, complete)
  {
  }

  lemma CloseScope(sm: map<FlowScope, FlowScope>, fm: map<FlowFunction, FlowFunction>, r: Region,
                   openS: set<FlowScope>, openF: set<FlowFunction>, complete: bool, s: FlowScope)
    requires Copying(sm, fm, r, openS + {s}, openF, complete) && s !in openS
    requires s in sm && ScopeMirrors(s, sm[s], sm, fm, complete)
    ensures Copying(sm, fm, r, openS, openF, complete)
  {
  }

  lemma OpenFunction(sm: map<FlowScope, FlowScope>, fm: map<FlowFunction, FlowFunction>, r: Region,
                     openS: set<FlowScope>, openF: set<FlowFunction>, complete: bool, f: FlowFunction, g: FlowFunction)
    requires Copying(sm, fm, r, openS, openF, complete)
    requires f in r.functions && f !in fm && g !in r.functions && g !in fm.Values
    requires g.params == f.params && g.body == f.body && g.origin == f.Identity()
    ensures Copying(sm, fm[f := g], r, openS, openF + {f}, complete)
  {
  }

  lemma CloseFunction(sm: map<FlowScope, FlowScope>, fm: map<FlowFunction, FlowFunction>, r: Region,
                      openS: set<FlowScope>, openF: set<FlowFunction>, complete: bool, f: FlowFunction)
    requires Copying(sm, fm, r, openS, openF + {f}, complete) && f !in openF
    requires f in fm && FunctionMirrors(f, fm[f], sm)
    ensures Copying(sm, fm, r, openS, openF, complete)
  {
  }

  /** A problem found later only makes the promise weaker. */
  lemma LessComplete(sm: map<FlowScope, FlowScope>, fm: map<FlowFunction, FlowFunction>, r: Region,
                     openS: set<FlowScope>, openF: set<FlowFunction>, complete: bool, complete': bool)
    requires Copying(sm, fm, r, openS, openF, complete) && (complete' ==> complete)
    ensures Copying(sm, fm, r, openS, openF, complete')
  {
  }

  /** The copy of an open scope or function is none of the finished ones. */
  lemma OpenIsNotDone(sm: map<FlowScope, FlowScope>, fm: map<FlowFunction, FlowFunction>, r: Region,
                      openS: set<FlowScope>, openF: set<FlowFunction>, complete: bool)
    requires Copying(sm, fm, r, openS, openF, complete)
    ensures openS <= sm.Keys && forall s :: s in openS ==> sm[s] !in Done(sm, openS) && sm[s] !in r.scopes
    ensures openF <= fm.Keys && forall f :: f in openF ==> fm[f] !in Done(fm, openF) && fm[f] !in r.functions
  {
  }

  lemma AddMirror(original: map<string, FlowValue>, copy: map<string, FlowValue>, fm: map<FlowFunction, FlowFunction>,
                  fm': map<FlowFunction, FlowFunction>, todo: set<string>, name: string, v: FlowValue)
    requires MapMirrors(original, copy, fm, todo) && name in todo && name in original
    requires forall f :: f in fm ==> f in fm' && fm'[f] == fm[f]
    requires ValueMirrors(original[name], v, fm')
    ensures MapMirrors(original, copy[name := v], fm', todo - {name})
  {
  }

  lemma NothingMirrored(original: map<string, FlowValue>, fm: map<FlowFunction, FlowFunction>)
    ensures MapMirrors(original, map[], fm, original.Keys)
  {
  }

  lemma AllMirrored(s: FlowScope, c: FlowScope, sm: map<FlowScope, FlowScope>, fm: map<FlowFunction, FlowFunction>,
                    missing: set<string>, complete: bool)
    requires ParentMirrors(s, c, sm) && MapMirrors(s.values, c.values, fm, missing) && (complete ==> missing == {})
    ensures ScopeMirrors(s, c, sm, fm, complete)
  {
  }

  lemma NothingCopied(r: Region, complete: bool)
    ensures Copying(map[], map[], r, {}, {}, complete)
  {
  }

  // ---------------------------------------------------------------------------------------------
  // Finished copies
  // ---------------------------------------------------------------------------------------------

  /** The scopes and functions a copy was made of. */
  ghost function Domain(sm: map<FlowScope, FlowScope>, fm: map<FlowFunction, FlowFunction>): Region {
    Region(sm.Keys, fm.Keys)
  }

  /** The scopes and functions a copy consists of. */
  ghost function Image(sm: map<FlowScope, FlowScope>, fm: map<FlowFunction, FlowFunction>): Region {
    Region(sm.Values, fm.Values)
  }

  /** Corresponding scopes are alike, have corresponding parents and the same variable names. */
  ghost predicate ScopesCorrespond(sm: map<FlowScope, FlowScope>)
    reads sm.Keys, sm.Values
  {
    forall s :: s in sm ==>
      && sm[s].isFunction == s.isFunction && sm[s].depth == s.depth
      && ParentMirrors(s, sm[s], sm)
      && sm[s].values.Keys == s.values.Keys
  }

  /** Corresponding variables carry the same sources and corresponding functions. */
  ghost predicate VariablesCorrespond(sm: map<FlowScope, FlowScope>, fm: map<FlowFunction, FlowFunction>)
    reads sm.Keys, sm.Values
  {
    forall s, n :: s in sm && n in s.values ==> n in sm[s].values && ValueMirrors(s.values[n], sm[s].values[n], fm)
  }

  /** Corresponding functions have the same text and close over corresponding scopes. */
  ghost predicate FunctionsCorrespond(sm: map<FlowScope, FlowScope>, fm: map<FlowFunction, FlowFunction>)
    reads fm.Keys, fm.Values
  {
    forall f :: f in fm ==>
      && fm[f].params == f.params && fm[f].body == f.body && fm[f].Identity() == f.Identity()
      && FunctionMirrors(f, fm[f], sm)
  }

  /**
   * The copy is an isomorphic image of a graph that is closed under parents, variables and
   * closed-over scopes, so it has an image of everything reachable.
   */
  ghost predicate Isomorphism(sm: map<FlowScope, FlowScope>, fm: map<FlowFunction, FlowFunction>)
    reads sm.Keys, fm.Keys, sm.Values, fm.Values
  {
    && Closed(Domain(sm, fm)) && Closed(Image(sm, fm))
    && Injective(sm) && Injective(fm)
    && ScopesCorrespond(sm) && VariablesCorrespond(sm, fm) && FunctionsCorrespond(sm, fm)
  }

  lemma CopyIsClosed(sm: map<FlowScope, FlowScope>, fm: map<FlowFunction, FlowFunction>, r: Region, complete: bool)
    requires Closed(r) && Copying(sm, fm, r, {}, {}, complete)
    ensures Closed(Image(sm, fm)) && Domain(sm, fm).Within(r)
  {
    var image := Image(sm, fm);
    forall c | c in image.scopes
      ensures ParentIn(c, image)
      ensures forall n :: n in c.values ==> ValueIn(c.values[n], image)
    {
      var s :| s in sm && sm[s] == c;
      assert ScopeMirrors(s, c, sm, fm, complete) && ParentIn(s, r);
    }
    forall g | g in image.functions ensures g.scope != null && g.scope in image.scopes {
      var f :| f in fm && fm[f] == g;
      assert FunctionMirrors(f, g, sm);
    }
  }

  lemma CopyCorresponds(sm: map<FlowScope, FlowScope>, fm: map<FlowFunction, FlowFunction>, r: Region)
    requires Closed(r) && Copying(sm, fm, r, {}, {}, true)
    ensures ScopesCorrespond(sm) && VariablesCorrespond(sm, fm) && FunctionsCorrespond(sm, fm)
  {
    forall s | s in sm
      ensures ParentMirrors(s, sm[s], sm) && MapMirrors(s.values, sm[s].values, fm, {})
    {
      assert ScopeMirrors(s, sm[s], sm, fm, true);
    }
    forall f | f in fm ensures FunctionMirrors(f, fm[f], sm) {
    }
  }

  lemma CopiedGraphIsClosed(sm: map<FlowScope, FlowScope>, fm: map<FlowFunction, FlowFunction>, r: Region)
    requires Closed(r) && Domain(sm, fm).Within(r)
    requires ScopesCorrespond(sm) && VariablesCorrespond(sm, fm) && FunctionsCorrespond(sm, fm)
    ensures Closed(Domain(sm, fm))
  {
    forall s | s in sm ensures ParentIn(s, Domain(sm, fm)) {
      assert ParentIn(s, r);
    }
  }

  lemma CopyIsIsomorphic(sm: map<FlowScope, FlowScope>, fm: map<FlowFunction, FlowFunction>, r: Region)
    requires Closed(r) && Copying(sm, fm, r, {}, {}, true)
    ensures Isomorphism(sm, fm)
  {
    hide ScopesCorrespond; hide VariablesCorrespond; hide FunctionsCorrespond; hide Closed;
    CopyIsClosed(sm, fm, r, true);
    CopyCorresponds(sm, fm, r);
    CopiedGraphIsClosed(sm, fm, r);
  }
}
