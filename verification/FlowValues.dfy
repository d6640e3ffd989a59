/** Joining values and variable tables after two branches, as pkg/jsanalysis/flow.go does it. */
module FlowValues {
  import opened Prelude
  import opened FlowSyntax
  import opened FlowHeap
  import opened FlowSpec

  /** A value without a function and without query parameters. */
  function Plain(sources: seq<Source>): FlowValue {
    FlowValue(sources, "", null)
  }

  /** A table of values without query parameters; the names in `funs` hold functions. */
  function Holding(vars: Vars, funs: map<string, FlowFunction>): map<string, FlowValue> {
    map n | n in vars :: FlowValue(vars[n], "", if n in funs then funs[n] else null)
  }

  lemma HoldingKeys(vars: Vars, funs: map<string, FlowFunction>)
    ensures Holding(vars, funs).Keys == vars.Keys
  {
  }

  lemma HoldingUpdate(vars: Vars, funs: map<string, FlowFunction>, name: string, value: seq<Source>)
    requires name !in funs
    ensures Holding(vars, funs)[name := Plain(value)] == Holding(vars[name := value], funs)
  {
  }

  /** Two functions meet that the analysis cannot follow together. */
  predicate Clash(left: FlowValue, right: FlowValue) {
    left.fn != null && right.fn != null && left.fn != right.fn
  }

  /** What may be held after either of two values. */
  function JoinedValue(left: FlowValue, right: FlowValue): FlowValue {
    FlowValue(Join(left.sources, right.sources), if left.params == right.params then left.params else "",
              if left.fn == null then right.fn else left.fn)
  }

  /** All three hold one function of the source text, perhaps as different branch copies. */
  predicate SameFunction(f: FlowFunction?, left: FlowFunction?, right: FlowFunction?) {
    f != null && left != null && right != null && f.Identity() == left.Identity() == right.Identity()
  }

  function FunctionAt(values: map<string, FlowValue>, name: string): FlowFunction? {
    if name in values then values[name].fn else null
  }

  function ValueAt(values: map<string, FlowValue>, name: string): FlowValue {
    if name in values then values[name] else Nothing
  }

  /**
   * What a variable holds after two branches that both started where it held function `f`: a function
   * that both branches kept stays the original one, not a branch copy.
   */
  function AfterBoth(f: FlowFunction?, left: FlowValue, right: FlowValue): FlowValue {
    if SameFunction(f, left.fn, right.fn) then JoinedValue(left.(fn := null), right.(fn := null)).(fn := f)
    else JoinedValue(left, right)
  }

  /** The variables of a scope after two branches. */
  function MergedValues(out: map<string, FlowValue>, left: map<string, FlowValue>,
                        right: map<string, FlowValue>): map<string, FlowValue> {
    map n | n in out.Keys + left.Keys + right.Keys ::
      if n in left then AfterBoth(FunctionAt(out, n), left[n], ValueAt(right, n))
      else if n in right then right[n]
      else out[n]
  }

  /** A merge in progress: the names in `done` of the left branch have been taken in. */
  function LeftMerged(out: map<string, FlowValue>, left: map<string, FlowValue>, right: map<string, FlowValue>,
                      done: set<string>): map<string, FlowValue>
    requires done <= left.Keys
  {
    map n | n in out.Keys + done :: if n in done then AfterBoth(FunctionAt(out, n), left[n], ValueAt(right, n))
        else out[n]
  }

  /** The names in `done` of the right branch have been taken in as well. */
  function RightMerged(out: map<string, FlowValue>, left: set<string>, right: map<string, FlowValue>,
                       done: set<string>): map<string, FlowValue>
    requires done <= right.Keys
  {
    map n | n in out.Keys + (done - left) :: if n in done && n !in left then right[n] else out[n]
  }

  lemma LeftMergedStep(out: map<string, FlowValue>, left: map<string, FlowValue>, right: map<string, FlowValue>,
                       done: set<string>, n: string)
    requires done <= left.Keys && n in left && n !in done
    ensures FunctionAt(LeftMerged(out, left, right, done), n) == FunctionAt(out, n)
    ensures LeftMerged(out, left, right, done + {n})
         == LeftMerged(out, left, right, done)[n := AfterBoth(FunctionAt(out, n), left[n], ValueAt(right, n))]
  {
    hide AfterBoth;
  }

  lemma RightMergedStep(out: map<string, FlowValue>, left: set<string>, right: map<string, FlowValue>,
                        done: set<string>, n: string)
    requires done <= right.Keys && n in right
    ensures RightMerged(out, left, right, done + {n})
         == if n in left then RightMerged(out, left, right, done)
             else RightMerged(out, left, right, done)[n := right[n]]
  {
  }

  lemma NothingMerged(out: map<string, FlowValue>, left: map<string, FlowValue>, right: map<string, FlowValue>)
    ensures LeftMerged(out, left, right, {}) == out && RightMerged(out, left.Keys, right, {}) == out
  {
  }

  lemma MergedAll(out: map<string, FlowValue>, left: map<string, FlowValue>, right: map<string, FlowValue>)
    ensures RightMerged(LeftMerged(out, left, right, left.Keys), left.Keys, right, right.Keys)
            == MergedValues(out, left, right)
  {
    hide AfterBoth;
    var m, all := LeftMerged(out, left, right, left.Keys), MergedValues(out, left, right);
    var r := RightMerged(m, left.Keys, right, right.Keys);
    assert r.Keys == all.Keys;
    forall n | n in r ensures r[n] == all[n] {
      assert n in left ==> m[n] == all[n];
    }
  }

  /** The tables of a whole chain of scopes after two branches. */
  function MergedChain(out: seq<map<string, FlowValue>>, left: seq<map<string, FlowValue>>,
                       right: seq<map<string, FlowValue>>)
    : (r: seq<map<string, FlowValue>>)
    requires |out| == |left| == |right|
    ensures |r| == |out|
  {
    seq(|out|, i requires 0 <= i < |out| => MergedValues(out[i], left[i], right[i]))
  }

  lemma MergedChainOuter(o: map<string, FlowValue>, l: map<string, FlowValue>, r: map<string, FlowValue>,
                         out: seq<map<string, FlowValue>>, left: seq<map<string, FlowValue>>,
                             right: seq<map<string, FlowValue>>)
    requires |out| == |left| == |right|
    ensures MergedChain([o] + out, [l] + left, [r] + right) == [MergedValues(o, l, r)] + MergedChain(out, left, right)
  {
    hide MergedValues;
  }

  /** A table that holds functions and nothing else. */
  function FunctionValues(funs: map<string, FlowFunction>): map<string, FlowValue> {
    map n | n in funs :: FlowValue([], "", funs[n])
  }

  lemma OneMoreFunction(values: map<string, FlowValue>, funs: map<string, FlowFunction>, name: string, f: FlowFunction)
    ensures (values + FunctionValues(funs))[name := FlowValue([], "", f)] == values + FunctionValues(funs[name := f])
  {
  }

  /** The tables of a chain whose outermost scope holds the functions `funs`. */
  function HoldingAlong(vars: seq<Vars>, funs: map<string, FlowFunction>): (r: seq<map<string, FlowValue>>)
    ensures |r| == |vars|
  {
    seq(|vars|, i requires 0 <= i < |vars| => Holding(vars[i], FunctionsOf(vars, funs, i)))
  }

  /** Only the outermost scope holds functions. */
  function FunctionsOf(vars: seq<Vars>, funs: map<string, FlowFunction>, i: nat): map<string, FlowFunction> {
    if i + 1 == |vars| then funs else map[]
  }

  /** The same functions of the source text, perhaps as different branch copies. */
  ghost predicate SameFunctions(a: map<string, FlowFunction>, b: map<string, FlowFunction>) {
    a.Keys == b.Keys && forall n :: n in a ==> a[n].Identity() == b[n].Identity()
  }

  /** The names of the functions are bound outermost and nowhere else. */
  ghost predicate Unshadowed(vars: seq<Vars>, names: set<string>) {
    vars != [] && names <= vars[|vars| - 1].Keys && forall i :: 0 <= i < |vars| - 1 ==> vars[i].Keys !! names
  }

  /** Chains without parameters are merged as the specification says, and their functions stay. */
  lemma HoldingMergedAlong(out: seq<Vars>, left: seq<Vars>, right: seq<Vars>, funs: map<string, FlowFunction>,
                           funsL: map<string, FlowFunction>, funsR: map<string, FlowFunction>)
    requires |out| == |left| == |right| && SameFunctions(funs, funsL) && SameFunctions(funs, funsR)
    requires Unshadowed(out, funs.Keys) && Unshadowed(left, funs.Keys) && Unshadowed(right, funs.Keys)
    ensures MergedChain(HoldingAlong(out, funs), HoldingAlong(left, funsL), HoldingAlong(right, funsR))
            == HoldingAlong(MergeChain(out, left, right), funs)
    ensures Unshadowed(MergeChain(out, left, right), funs.Keys)
  {
    hide MergedValues; hide MergeVars; hide Holding; hide SameFunctions;
    var m := MergeChain(out, left, right);
    EmptyTablesAgree();
    forall i | 0 <= i < |out|
      ensures MergedValues(HoldingAlong(out, funs)[i], HoldingAlong(left, funsL)[i], HoldingAlong(right, funsR)[i])
              == HoldingAlong(m, funs)[i]
      ensures m[i].Keys == out[i].Keys + left[i].Keys + right[i].Keys
    {
      MergedNames(out[i], left[i], right[i]);
      if i + 1 == |out| {
        HoldingMerged(out[i], left[i], right[i], funs, funsL, funsR);
      } else {
        HoldingMerged(out[i], left[i], right[i], map[], map[], map[]);
      }
    }
  }

  lemma EmptyTablesAgree()
    ensures SameFunctions(map[], map[])
  {
  }

  lemma MergedNames(out: Vars, left: Vars, right: Vars)
    ensures MergeVars(out, left, right).Keys == out.Keys + left.Keys + right.Keys
  {
  }

  /** Tables without parameters are merged as the specification says. */
  lemma HoldingMerged(out: Vars, left: Vars, right: Vars, funs: map<string, FlowFunction>,
                      funsL: map<string, FlowFunction>, funsR: map<string, FlowFunction>)
    requires SameFunctions(funs, funsL) && SameFunctions(funs, funsR)
    requires funs.Keys <= out.Keys && funs.Keys <= left.Keys && funs.Keys <= right.Keys
    ensures MergedValues(Holding(out, funs), Holding(left, funsL), Holding(right, funsR))
            == Holding(MergeVars(out, left, right), funs)
  {
    hide AfterBoth; hide ValueAt; hide FunctionAt; hide Join;
    var m := MergedValues(Holding(out, funs), Holding(left, funsL), Holding(right, funsR));
    var p := Holding(MergeVars(out, left, right), funs);
    assert m.Keys == p.Keys;
    forall n | n in p ensures m[n] == p[n] {
      if n in left {
        BothHold(out, left, right, funs, funsL, funsR, n);
      }
    }
  }

  /** One name that the left branch binds. */
  lemma BothHold(out: Vars, left: Vars, right: Vars, funs: map<string, FlowFunction>,
                 funsL: map<string, FlowFunction>, funsR: map<string, FlowFunction>, n: string)
    requires SameFunctions(funs, funsL) && SameFunctions(funs, funsR) && n in left
    requires funs.Keys <= out.Keys && funs.Keys <= left.Keys && funs.Keys <= right.Keys
    ensures AfterBoth(FunctionAt(Holding(out, funs), n), Holding(left, funsL)[n], ValueAt(Holding(right, funsR), n))
            == FlowValue(Join(left[n], if n in right then right[n] else []), "", if n in funs then funs[n] else null)
  {
    hide Join;
  }

  /** Parameter `i` binds the name. */
  predicate IsParameter(params: seq<Target>, i: nat, name: string) {
    i < |params| && params[i].Named? && params[i].name == name
  }

  /** A table with the named parameters bound to the arguments. */
  function WithParameters(values: map<string, FlowValue>, params: seq<Target>,
                          args: seq<FlowValue>): map<string, FlowValue> {
    if params == [] then values
    else
      var n := |params| - 1;
      var rest := WithParameters(values, params[..n], args);
      if params[n].Named? then rest[params[n].name := if n < |args| then args[n] else Nothing] else rest
  }

  /** Plain arguments are bound as the specification says. */
  lemma {:induction false} ParametersHold(params: seq<Target>, args: seq<FlowValue>, values: seq<seq<Source>>)
    requires PlainArgs(args, values)
    ensures WithParameters(map[], params, args) == Holding(AbsParameters(params, values), map[])
  {
    if params != [] {
      var n := |params| - 1;
      ParametersHold(params[..n], args, values);
    }
  }

  /** The names bound are those of the parameters. */
  lemma {:induction false} ParameterNames(params: seq<Target>, values: seq<seq<Source>>, names: set<string>)
    requires forall i :: 0 <= i < |params| && params[i].Named? ==> params[i].name !in names
    ensures AbsParameters(params, values).Keys !! names
  {
    if params != [] {
      ParameterNames(params[..|params| - 1], values, names);
    }
  }

  /** Arguments that carry these sources and nothing else. */
  ghost predicate PlainArgs(args: seq<FlowValue>, values: seq<seq<Source>>) {
    |args| == |values| && forall i :: 0 <= i < |args| ==> args[i] == Plain(values[i])
  }

  /** The last parameter of a name counts; a missing argument is an unknown value. */
  lemma {:induction false} ParameterIsBound(values: map<string, FlowValue>, params: seq<Target>, args: seq<FlowValue>,
                                            i: nat, name: string)
    requires IsParameter(params, i, name) && forall j: nat :: IsParameter(params, j, name) ==> j <= i
    ensures name in WithParameters(values, params, args)
    ensures WithParameters(values, params, args)[name] == if i < |args| then args[i] else Nothing
  {
    var n := |params| - 1;
    if i < n {
      assert !IsParameter(params, n, name);
      assert forall j: nat :: IsParameter(params[..n], j, name) ==> IsParameter(params, j, name);
      ParameterIsBound(values, params[..n], args, i, name);
    }
  }

  /** No other name is touched. */
  lemma {:induction false} OtherNamesStay(values: map<string, FlowValue>, params: seq<Target>, args: seq<FlowValue>,
                                          name: string)
    requires forall i: nat :: !IsParameter(params, i, name)
    ensures name in WithParameters(values, params, args) <==> name in values
    ensures name in values ==> WithParameters(values, params, args)[name] == values[name]
  {
    if params != [] {
      var n := |params| - 1;
      assert !IsParameter(params, n, name);
      assert forall j: nat :: IsParameter(params[..n], j, name) ==> IsParameter(params, j, name);
      OtherNamesStay(values, params[..n], args, name);
    }
  }
}
