/** Reading each backend's tunables out of the generic `**mcmc_options` mapping,
    with the defaults `run_mcmc` uses (`mcmc_options.get(key, default)`).
    Option values are opaque: they are forwarded to the engines, never interpreted.
 */
module Options {

  /** An option value as a caller may supply it. */
  datatype Value = VInt(i: int) | VReal(x: real) | VBool(b: bool) | VNone | VText(s: string)

  type OptionMap = map<string, Value>

  /** `mcmc_options.get(key, default)`. */
  function Get(opts: OptionMap, key: string, default: Value): (v: Value)
    ensures key in opts ==> v == opts[key]
    ensures key !in opts ==> v == default
  {
    if key in opts then opts[key] else default
  }

  // ---------------------------------------------------------------- MultiNest

  datatype MultiNestConfig = MultiNestConfig(
    nLivePoints: Value,
    importanceNestedSampling: Value,
    samplingEfficiency: Value,
    evidenceTolerance: Value,
    maxIter: Value,
    multimodal: Value,
    writeOutput: Value)

  /** The documented MultiNest defaults, as a table keyed like the options. */
  const MultiNestDefaults: OptionMap := map[
    "n_live_points" := VInt(100),
    "importance_nested_sampling" := VBool(true),
    "sampling_efficiency" := VReal(0.8),
    "evidence_tolerance" := VReal(0.5),
    "max_iter" := VInt(50),
    "multimodal" := VBool(true),
    "write_output" := VBool(true)]

  /** A configuration read from a table that has every MultiNest key. */
  function MultiNestFromTable(t: OptionMap): MultiNestConfig
    requires MultiNestDefaults.Keys <= t.Keys
  {
    MultiNestConfig(t["n_live_points"], t["importance_nested_sampling"], t["sampling_efficiency"],
                    t["evidence_tolerance"], t["max_iter"], t["multimodal"], t["write_output"])
  }

  /** The option reads of the `use_multinest` branch. */
  function ReadMultiNest(opts: OptionMap): (r: MultiNestConfig)
    ensures r == MultiNestFromTable(MultiNestDefaults + opts)
  {
    MultiNestConfig(
      Get(opts, "n_live_points", VInt(100)),
      Get(opts, "importance_nested_sampling", VBool(true)),
      Get(opts, "sampling_efficiency", VReal(0.8)),
      Get(opts, "evidence_tolerance", VReal(0.5)),
      Get(opts, "max_iter", VInt(50)),
      Get(opts, "multimodal", VBool(true)),
      Get(opts, "write_output", VBool(true)))
  }

  /** Every MultiNest setting is the caller's value when the key is given and the
      documented default otherwise: reading the options is the same as laying
      them over the defaults table. */
  lemma ReadMultiNestOverDefaults(opts: OptionMap)
    ensures ReadMultiNest(opts) == MultiNestFromTable(MultiNestDefaults + opts)
    ensures ReadMultiNest(map[]) == MultiNestConfig(VInt(100), VBool(true), VReal(0.8), VReal(0.5),
                                                    VInt(50), VBool(true), VBool(true))
  {
  }

  // ---------------------------------------------------------------- zeus

  datatype ZeusConfig = ZeusConfig(
    ndim: Value,
    nwalkers: Value,
    nsteps: Value,
    tolerance: Value,
    patience: Value,
    maxsteps: Value,
    mu: Value,
    maxiter: Value,
    pool: Value,
    vectorize: Value,
    blobsDtype: Value,
    verbose: Value,
    checkWalkers: Value,
    shuffleEnsemble: Value,
    lightMode: Value)

  /** The documented zeus defaults. `verbose` is absent: the source never reads a
      "verbose" key (see ReadZeus). */
  const ZeusDefaults: OptionMap := map[
    "ndim" := VInt(2),
    "nwalkers" := VInt(10),
    "nsteps" := VInt(100),
    "tolerance" := VReal(0.05),
    "patience" := VInt(5),
    "maxsteps" := VReal(10000.0),
    "mu" := VReal(1.0),
    "maxiter" := VReal(10000.0),
    "pool" := VNone,
    "vectorize" := VBool(false),
    "blobs_dtype" := VNone,
    "check_walkers" := VBool(true),
    "shuffle_ensemble" := VBool(true),
    "light_mode" := VBool(false)]

  /** A configuration read from a table that has every zeus key, with `verbose`
      supplied separately. */
  function ZeusFromTable(t: OptionMap, verbose: Value): ZeusConfig
    requires ZeusDefaults.Keys <= t.Keys
  {
    ZeusConfig(t["ndim"], t["nwalkers"], t["nsteps"], t["tolerance"], t["patience"], t["maxsteps"],
               t["mu"], t["maxiter"], t["pool"], t["vectorize"], t["blobs_dtype"], verbose,
               t["check_walkers"], t["shuffle_ensemble"], t["light_mode"])
  }

  /** The option reads of the `use_zeus` branch, including the one that takes
      `verbose` from the "vectorize" key with default True. */
  function ReadZeus(opts: OptionMap): (r: ZeusConfig)
    ensures "vectorize" in opts ==> r.verbose == opts["vectorize"]
    ensures "vectorize" !in opts ==> r.verbose == VBool(true)
  {
    ZeusConfig(
      Get(opts, "ndim", VInt(2)),
      Get(opts, "nwalkers", VInt(10)),
      Get(opts, "nsteps", VInt(100)),
      Get(opts, "tolerance", VReal(0.05)),
      Get(opts, "patience", VInt(5)),
      Get(opts, "maxsteps", VReal(10000.0)),
      Get(opts, "mu", VReal(1.0)),
      Get(opts, "maxiter", VReal(10000.0)),
      Get(opts, "pool", VNone),
      Get(opts, "vectorize", VBool(false)),
      Get(opts, "blobs_dtype", VNone),
      Get(opts, "vectorize", VBool(true)),
      Get(opts, "check_walkers", VBool(true)),
      Get(opts, "shuffle_ensemble", VBool(true)),
      Get(opts, "light_mode", VBool(false)))
  }

  /** Every zeus setting other than `verbose` is the caller's value or the
      documented default. */
  lemma ReadZeusOverDefaults(opts: OptionMap)
    ensures ReadZeus(opts) == ZeusFromTable(ZeusDefaults + opts, ReadZeus(opts).verbose)
  {
  }

  /** With no options given, zeus runs with the documented tuning defaults. */
  lemma ZeusDefaultsWhenUnset()
    ensures var c := ReadZeus(map[]);
      && c.tolerance == VReal(0.05) && c.patience == VInt(5)
      && c.nwalkers == VInt(10) && c.nsteps == VInt(100) && c.ndim == VInt(2)
  {
  }

  /** The `verbose` quirk: the setting follows the "vectorize" key, so with the key
      given the two always agree, without it they disagree (verbose True,
      vectorize False), and a "verbose" key has no effect at all. */
  lemma ZeusVerboseFollowsVectorize(opts: OptionMap, v: Value)
    ensures "vectorize" in opts ==> ReadZeus(opts).verbose == ReadZeus(opts).vectorize == opts["vectorize"]
    ensures "vectorize" !in opts ==>
      ReadZeus(opts).verbose == VBool(true) && ReadZeus(opts).vectorize == VBool(false)
    ensures ReadZeus(opts["verbose" := v]) == ReadZeus(opts)
  {
  }

  // ---------------------------------------------------------------- default sampler

  /** The worker pool handed to the default sampler: the caller's "pool" option,
      or a new process pool whose `max_workers` is the "threadCount" option
      (default 1). */
  datatype Pool = SuppliedPool(handle: Value) | NewProcessPool(maxWorkers: Value)

  /** The pool and the options forwarded as keyword arguments to the default
      sampler, after `mcmc_options.pop("pool", ...)`. */
  datatype DefaultSamplerOptions = DefaultSamplerOptions(pool: Pool, forwarded: OptionMap)

  function ReadDefaultSampler(opts: OptionMap): (r: DefaultSamplerOptions)
    ensures "pool" in opts ==> r.pool == SuppliedPool(opts["pool"])
    ensures "pool" !in opts ==> r.pool == NewProcessPool(Get(opts, "threadCount", VInt(1)))
    ensures r.forwarded.Keys == opts.Keys - {"pool"}
    ensures forall k :: k in r.forwarded ==> r.forwarded[k] == opts[k]
  {
    var pool := if "pool" in opts then SuppliedPool(opts["pool"])
                else NewProcessPool(Get(opts, "threadCount", VInt(1)));
    DefaultSamplerOptions(pool, opts - {"pool"})
  }

  /** The keywords `run_mcmc` passes to the default sampler by name, next to the
      forwarded options. */
  const DefaultSamplerKeywords: set<string> :=
    {"continue_sampling", "likelihoodComputationChain", "storageUtil", "filePrefix", "reuseBurnin", "pool"}

  /** The forwarded options that repeat a keyword passed by name. Python rejects
      such a call with TypeError ("got multiple values for keyword argument"). */
  function KeywordClashes(o: DefaultSamplerOptions): set<string> {
    o.forwarded.Keys * DefaultSamplerKeywords
  }

  /** Since "pool" is popped before the call, it never clashes. Any other key
      passed by name that the caller also supplies as an option does. */
  lemma DefaultSamplerClashes(opts: OptionMap)
    ensures "pool" !in KeywordClashes(ReadDefaultSampler(opts))
    ensures KeywordClashes(ReadDefaultSampler(opts)) ==
      opts.Keys * {"continue_sampling", "likelihoodComputationChain", "storageUtil", "filePrefix", "reuseBurnin"}
  {
    var r := ReadDefaultSampler(opts);
    assert r.forwarded.Keys == opts.Keys - {"pool"};
  }
}
