/** The likelihood computation chain and its assembly (`build_computation_chain`).
    Core and likelihood modules are opaque values identified by name; the only
    attribute the orchestration layer inspects is a likelihood module's optional
    `_simulate` flag.
 */
module Chain {
  import opened Wrappers

  /** One sampled parameter: a name with its `(val, min, max, width)` tuple. */
  datatype Parameter = Parameter(name: string, init: real, min: real, max: real, width: real)

  /** `Params`: the parameters in insertion order, which is the dimension order
      handed to the numeric backends. */
  datatype ParamSet = ParamSet(entries: seq<Parameter>) {

    /** `params.keys`: the names, position by position. */
    function Keys(): (ks: seq<string>)
      ensures |ks| == |entries|
      ensures forall i :: 0 <= i < |entries| ==> ks[i] == entries[i].name
    {
      seq(|entries|, i requires 0 <= i < |entries| => entries[i].name)
    }
  }

  /** A core module: produces simulated data; opaque apart from its identity. */
  datatype CoreModule = CoreModule(id: string)

  /** A likelihood module. `simulate` is None when the object has no `_simulate`
      attribute, and Some(flag) when it has one. */
  datatype LikelihoodModule = LikelihoodModule(id: string, simulate: Option<bool>)

  /** What a caller may pass for `core_modules` or `likelihood_modules`: a single
      object without `__len__`, or a sized collection iterated in order. */
  datatype ModuleArg<M> = One(single: M) | Many(items: seq<M>)

  /** `LikelihoodComputationChain`: parameters, modules in order, and whether
      `setup()` has been called on it. */
  datatype Chain = Chain(params: Option<ParamSet>, cores: seq<CoreModule>,
                         likes: seq<LikelihoodModule>, setupDone: bool)

  /** The sequence of modules a ModuleArg stands for: a lone object is wrapped in
      a one-element list, a collection is taken as it is. */
  function Normalize<M>(a: ModuleArg<M>): (s: seq<M>)
    ensures a.One? ==> s == [a.single]
    ensures a.Many? ==> s == a.items
  {
    match a
    case One(m) => [m]
    case Many(ms) => ms
  }

  /** `LikelihoodComputationChain(params)`: a chain with no modules yet. */
  function EmptyChain(params: Option<ParamSet>): Chain {
    Chain(params, [], [], false)
  }

  function AddCoreModule(c: Chain, m: CoreModule): Chain {
    c.(cores := c.cores + [m])
  }

  function AddLikelihoodModule(c: Chain, m: LikelihoodModule): Chain {
    c.(likes := c.likes + [m])
  }

  /** The `for cm in core_modules: chain.addCoreModule(cm)` loop, as a left fold:
      the modules end up after the existing ones, in the order supplied, and
      nothing else in the chain changes. */
  function AddCores(c: Chain, ms: seq<CoreModule>): (r: Chain)
    ensures r.cores == c.cores + ms
    ensures r.likes == c.likes && r.params == c.params && r.setupDone == c.setupDone
    decreases |ms|
  {
    if ms == [] then c
    else
      var r := AddCores(AddCoreModule(c, ms[0]), ms[1..]);
      assert (c.cores + [ms[0]]) + ms[1..] == c.cores + ms;
      r
  }

  /** The `for lk in likelihood_modules: chain.addLikelihoodModule(lk)` loop. */
  function AddLikes(c: Chain, ms: seq<LikelihoodModule>): (r: Chain)
    ensures r.likes == c.likes + ms
    ensures r.cores == c.cores && r.params == c.params && r.setupDone == c.setupDone
    decreases |ms|
  {
    if ms == [] then c
    else
      var r := AddLikes(AddLikelihoodModule(c, ms[0]), ms[1..]);
      assert (c.likes + [ms[0]]) + ms[1..] == c.likes + ms;
      r
  }

  /** `chain.setup()`. The modules' own setup routines are not modelled. */
  function Setup(c: Chain): (r: Chain)
    ensures r.setupDone
    ensures r.params == c.params && r.cores == c.cores && r.likes == c.likes
  {
    c.(setupDone := true)
  }

  /** `build_computation_chain(core_modules, likelihood_modules, params, setup)`:
      the chain holds exactly the supplied cores, then exactly the supplied
      likelihoods, each in the order given, and is set up iff `setup` is true. */
  function BuildComputationChain(cores: ModuleArg<CoreModule>, likes: ModuleArg<LikelihoodModule>,
                                 params: Option<ParamSet>, setup: bool): (r: Chain)
    ensures r.params == params
    ensures r.cores == Normalize(cores)
    ensures r.likes == Normalize(likes)
    ensures r.setupDone <==> setup
  {
    var c := AddLikes(AddCores(EmptyChain(params), Normalize(cores)), Normalize(likes));
    if setup then Setup(c) else c
  }

  /** One pass of the continuation fix-up on a single module: a module that has
      `_simulate` set has it cleared. */
  function ClearSimulate(lk: LikelihoodModule): (r: LikelihoodModule)
    ensures r.id == lk.id
    ensures lk.simulate.Some? ==> r.simulate == Some(false)
    ensures lk.simulate.None? ==> r == lk
  {
    match lk.simulate
    case Some(flag) => if flag then lk.(simulate := Some(false)) else lk
    case None => lk
  }

  /** The loop over `chain.getLikelihoodModules()` that forces `_simulate` off:
      every module that has the attribute ends with it false, modules without it
      are untouched, and the parameters, cores, order and setup state are kept. */
  function ClearSimulateFlags(c: Chain): (r: Chain)
    ensures r.params == c.params && r.cores == c.cores && r.setupDone == c.setupDone
    ensures |r.likes| == |c.likes|
    ensures forall i :: 0 <= i < |c.likes| ==>
      && r.likes[i].id == c.likes[i].id
      && (c.likes[i].simulate.Some? ==> r.likes[i].simulate == Some(false))
      && (c.likes[i].simulate.None? ==> r.likes[i] == c.likes[i])
    ensures forall i :: 0 <= i < |r.likes| ==> r.likes[i].simulate != Some(true)
  {
    c.(likes := seq(|c.likes|, i requires 0 <= i < |c.likes| => ClearSimulate(c.likes[i])))
  }

  /** Clearing the flags a second time changes nothing. */
  lemma ClearSimulateFlagsIdempotent(c: Chain)
    ensures ClearSimulateFlags(ClearSimulateFlags(c)) == ClearSimulateFlags(c)
  {
    var once := ClearSimulateFlags(c);
    var twice := ClearSimulateFlags(once);
    assert twice.likes == once.likes;
  }

  /** A chain that has no module with `_simulate` set is a fixed point. */
  lemma ClearSimulateFlagsFixedPoint(c: Chain)
    ensures ClearSimulateFlags(c) == c <==>
      forall i :: 0 <= i < |c.likes| ==> c.likes[i].simulate != Some(true)
  {
    var r := ClearSimulateFlags(c);
    if forall i :: 0 <= i < |c.likes| ==> c.likes[i].simulate != Some(true) {
      assert r.likes == c.likes;
    }
  }
}
