# py21cmmc sampler orchestration, modelled in Dafny

This project models the orchestration layer of 21CMMC's `run_mcmc`, found in
`src/py21cmmc/mcmc.py`. The layer does four things:

- it assembles a likelihood computation chain from core and likelihood modules
  (`build_computation_chain`);
- it checks the backend flags and reads each sampling engine's options with
  their defaults;
- it runs the continuation check against the chain descriptor stored on disk
  (`<file_prefix>.LCC.yml`), forces likelihood modules' `_simulate` flags off,
  writes the descriptor and calls `setup()`;
- it builds the parameter-space closures handed to MultiNest and zeus (prior
  transform, bounds check, likelihood and posterior).

Modules and chains are opaque values. Core modules are identified by name.
Likelihood modules have a name and an optional `_simulate` flag. The simulator,
that is building model data and then scoring it, is a function parameter that
returns a value or an exception. Parameter arithmetic uses exact `real`.

Files:

- `wrappers.dfy` (`Wrappers`): the `Option` and `Result` types.
- `chain.dfy` (`Chain`): parameters, modules, the chain, chain assembly and the
  simulate-flag fix-up.
- `options.dfy` (`Options`): option values, and the MultiNest, zeus and
  default-sampler option reads with their defaults.
- `run.dfy` (`Run`): `run_mcmc` up to the engine call, as a pure function. It
  returns a trace of effects and a `Result`. `RunMcmc` checks the flags,
  assembles the chain and hands it to `Proceed`, which models the rest. The
  lemmas about `Proceed` hold for any assembled chain. The effects are `mkdir`, the
  descriptor read, the descriptor write, `setup()` and the engine start.
- `closures.dfy` (`Closures`): `zip`, the likelihood, the MultiNest prior
  transform, the zeus prior and the zeus posterior.

How effects are modelled:

- The file system is a parameter. `Descriptor` is what opening and loading the
  descriptor yields: `Absent` (FileNotFoundError), `Unreadable` (any other
  exception, which propagates) or `Present(stored)`.
- Whether the descriptor write succeeds is a boolean parameter.
- Chain equality (`old_chain != chain`) is whole-value equality of the `Chain`
  datatype.

Two details of the code that the model keeps:

- The `_simulate` fix-up runs whenever `continue_sampling` is set and the
  default engine is used, including when no descriptor file exists
  (mcmc.py:265-277): the `FileNotFoundError` is passed over and the loop over
  likelihood modules still runs.
- zeus `verbose` is read from the `"vectorize"` key with default `True`
  (mcmc.py:234), so a `"verbose"` option is ignored
  (`Options.ZeusVerboseFollowsVectorize`).

Whole-value equality has a consequence that
`Run.SecondRunWithSimulatingLikelihoodRaises` states:

- A continued default run with no descriptor on disk writes the chain after
  clearing `_simulate`.
- A second call with freshly constructed modules (for example the same script
  run again) builds a chain whose flag is still set.
- That chain differs from the stored one, so the second call raises.

Because `continue_sampling` defaults to True, a call that sets no flags is in
this situation (`Run.DefaultCallContinues`).

`LikelihoodComputationChain.__eq__` is defined outside mcmc.py; the model uses
whole-value equality.

The default sampler is called with `continue_sampling`,
`likelihoodComputationChain`, `storageUtil`, `filePrefix`, `reuseBurnin` and
`pool` by name and the remaining options as keywords (mcmc.py:389-397). An
option with one of those names (other than `pool`, which is popped first)
makes the call raise TypeError. This happens after the descriptor is written
and `setup()` is called. Python binds `continue_sampling` to `run_mcmc`'s own
parameter, so it never reaches the options; the model's option map may hold it
and then fails the same way.

## Model

| member | source | states |
|---|---|---|
| Chain.Normalize | src/py21cmmc/mcmc.py:40-44 | a module without `__len__` becomes a one-element list; a sized collection is kept as given |
| Chain.AddCores | src/py21cmmc/mcmc.py:48-49 | the core-module loop appends the supplied modules after the existing ones, in order, and changes nothing else in the chain |
| Chain.AddLikes | src/py21cmmc/mcmc.py:51-52 | the likelihood-module loop appends the supplied modules after the existing ones, in order, and changes nothing else in the chain |
| Chain.BuildComputationChain | src/py21cmmc/mcmc.py:21-56 | the chain holds the given params, exactly the supplied cores, then exactly the supplied likelihoods, in order; it is set up iff `setup` is true |
| Chain.ClearSimulate | src/py21cmmc/mcmc.py:270-277 | one module: with `_simulate` present it ends false; without the attribute the module is unchanged; its identity is kept |
| Chain.ClearSimulateFlags | src/py21cmmc/mcmc.py:269-277 | every likelihood module that has `_simulate` ends with it false, modules without it are unchanged, no module is left simulating, and params, cores, order and setup state are kept |
| Chain.ClearSimulateFlagsIdempotent | src/py21cmmc/mcmc.py:269-277 | applying the fix-up twice gives the same chain as applying it once |
| Chain.ClearSimulateFlagsFixedPoint | src/py21cmmc/mcmc.py:269-277 | the fix-up leaves a chain unchanged iff no likelihood module has `_simulate` set |
| Options.ReadMultiNestOverDefaults | src/py21cmmc/mcmc.py:183-192 | each MultiNest setting is the caller's option when given, else its default: n_live_points 100, importance_nested_sampling True, sampling_efficiency 0.8, evidence_tolerance 0.5, max_iter 50, multimodal True, write_output True |
| Options.ReadMultiNest | src/py21cmmc/mcmc.py:183-192 | the MultiNest settings are the defaults table overlaid with the caller's options |
| Options.ReadZeus | src/py21cmmc/mcmc.py:232-234 | verbose is the "vectorize" option when given and True otherwise |
| Options.ReadZeusOverDefaults | src/py21cmmc/mcmc.py:203-237 | each zeus setting except verbose is the caller's option when given, else its entry in the defaults table: ndim 2, nwalkers 10, nsteps 100, tolerance 0.05, patience 5, maxsteps and maxiter 1e4, mu 1.0, pool None, vectorize False, blobs_dtype None, check_walkers True, shuffle_ensemble True, light_mode False |
| Options.ZeusDefaultsWhenUnset | src/py21cmmc/mcmc.py:204-227 | with no options, zeus gets tolerance 0.05, patience 5, nwalkers 10, nsteps 100 and ndim 2 |
| Options.ZeusVerboseFollowsVectorize | src/py21cmmc/mcmc.py:232-234 | verbose is read from the "vectorize" key with default True: it equals vectorize when that key is given, is True while vectorize is False when the key is missing, and a "verbose" key has no effect |
| Options.ReadDefaultSampler | src/py21cmmc/mcmc.py:385-397 | the default sampler gets the caller's pool if one is given, else a new process pool sized by threadCount (default 1); every other option is forwarded unchanged and "pool" is not forwarded |
| Options.DefaultSamplerClashes | src/py21cmmc/mcmc.py:385-397 | the options that collide with the default sampler's named keywords are exactly those among continue_sampling, likelihoodComputationChain, storageUtil, filePrefix and reuseBurnin; pool never collides because it is popped |
| Run.SelectBackend | src/py21cmmc/mcmc.py:297-397 | MultiNest iff use_multinest, zeus iff use_zeus, otherwise the default sampler; MultiNest gets the MultiNest options read with their defaults, one dimension per parameter, resume = continue_sampling, and the output basename `datadir + "/MultiNest/" + model_name`; zeus gets the zeus options read with their defaults; the default sampler is the `sampler_cls` given and gets its pool and forwarded options, continue_sampling, reuse_burnin and the file prefix from datadir and model_name |
| Run.CheckContinuation | src/py21cmmc/mcmc.py:252-277 | fails iff the descriptor cannot be loaded or the stored chain differs from the current one; a load failure propagates as its own error and a difference raises RuntimeError; otherwise the result is the chain with `_simulate` flags cleared; a missing file counts as a match |
| Run.Proceed | src/py21cmmc/mcmc.py:193-397 | once the flags are checked, the first observable step is mkdir of the output directory, with `/MultiNest/` appended for MultiNest; the continuation step, descriptor write, `setup()`, keyword-clash TypeError and dispatch it goes on to (through `Run.Finish`) are stated by the `Run.*` lemmas over it |
| Run.DefaultCallContinues | src/py21cmmc/mcmc.py:59-72 | with the keyword defaults (datadir ".", model_name "21CMMC", continue_sampling True, no alternative engine) the default sampler is used and the continuation check against `./21CMMC.LCC.yml` runs, right after mkdir |
| Run.ContinuationErrors | src/py21cmmc/mcmc.py:252-266 | where the continuation check applies, an unloadable descriptor ends the run with the load error itself and a descriptor holding a different chain ends it with RuntimeError |
| Run.RunMcmc | src/py21cmmc/mcmc.py:177-201 | setting both backend flags raises ValueError with nothing done (empty trace); otherwise mkdir of the output directory comes first, with `/MultiNest/` appended for MultiNest |
| Run.RunFailsExactlyWhen | src/py21cmmc/mcmc.py:179-397 | the run fails iff both backend flags are set, or the continuation check applies and the descriptor cannot be loaded or holds a chain different from the freshly assembled one, or the default sampler would receive one of its named keywords again among the options |
| Run.FailedRunStopsEarly | src/py21cmmc/mcmc.py:252-266 | no failing run starts an engine; a run failing the continuation check has done only mkdir and the descriptor read: it never writes the descriptor or calls setup |
| Run.KeywordClashRaisesAfterSetup | src/py21cmmc/mcmc.py:279-397 | the TypeError from a repeated sampler keyword (Python names only the first duplicate; the model's error carries the whole set of repeated keys) comes after the descriptor write and setup, with no engine started |
| Run.SuccessfulRunShape | src/py21cmmc/mcmc.py:279-291 | a successful run ends by writing the not-yet-set-up chain to the descriptor, calling setup, and starting the engine |
| Run.DispatchFollowsFlags | src/py21cmmc/mcmc.py:297-397 | the engine started is MultiNest iff use_multinest, zeus iff use_zeus, and the default sampler iff neither; MultiNest and zeus get their option reads and MultiNest resumes iff continue_sampling; the default sampler is the `sampler_cls` given and gets its option read, continue_sampling, reuse_burnin and the file prefix |
| Run.WriteFailureIsNotFatal | src/py21cmmc/mcmc.py:281-291 | the run's result is the same whether or not the descriptor write fails; setup still happens whenever the continuation check passed, and the engine starts whenever the run succeeds |
| Run.ContinuationForcesSimulateOff | src/py21cmmc/mcmc.py:252-277 | with the continuation check applying, a successful run keeps params, cores and module order and leaves no likelihood module simulating |
| Run.NoContinuationKeepsModules | src/py21cmmc/mcmc.py:252-397 | without the continuation check (not requested, or MultiNest or zeus chosen) the descriptor is never read, and the run goes ahead with the modules exactly as supplied iff the default sampler gets no keyword twice |
| Run.FirstContinuedRun | src/py21cmmc/mcmc.py:252-283 | a continued default run that finds no descriptor writes the chain with its `_simulate` flags cleared right after mkdir and the read, and goes ahead iff the default sampler gets no keyword twice |
| Run.SecondRunWithSimulatingLikelihoodRaises | src/py21cmmc/mcmc.py:252-283 | a second continued default run with freshly constructed modules, after a first that found no descriptor, raises RuntimeError when a likelihood module was created with `_simulate` set |
| Run.SecondRunWithoutSimulatingLikelihoodContinues | src/py21cmmc/mcmc.py:252-283 | the same repetition ends as the first run did when no module had `_simulate` set |
| Closures.Zip | src/py21cmmc/mcmc.py:303 | parameter keys and coordinates are paired by position, and the result is as long as the shorter of the two |
| Closures.ZipIgnoresExtraCoordinates | src/py21cmmc/mcmc.py:349 | coordinates past the last parameter key never reach the named point |
| Closures.Likelihood | src/py21cmmc/mcmc.py:299-307 | the value is negative infinity iff building model data raises ParameterError, the simulator's value otherwise; any other exception propagates |
| Closures.LikelihoodIgnoresExtraCoordinates | src/py21cmmc/mcmc.py:345-353 | the likelihood depends only on the first len(params) coordinates |
| Closures.FromUnitInRange | src/py21cmmc/mcmc.py:311 | for u in [0,1] and min <= max the prior image lies in [min, max]; 0 maps to min and 1 to max |
| Closures.FromUnitRoundTrip | src/py21cmmc/mcmc.py:311 | on a non-degenerate range the affine prior map and its inverse undo each other |
| Closures.MultiNestPrior | src/py21cmmc/mcmc.py:309-311 | entries below ndim become min + p[i]*(max-min), the other entries are untouched, and unit-cube entries land in their parameter's range |
| Closures.AnyOutsideFrom | src/py21cmmc/mcmc.py:340-343 | the early-exit scan from a given index reports true iff some later coordinate is strictly above its max or strictly below its min |
| Closures.ZeusPrior | src/py21cmmc/mcmc.py:339-343 | the point is returned unchanged; it is flagged invalid iff some coordinate is strictly outside its bounds |
| Closures.ZeusPriorAcceptsClosedBox | src/py21cmmc/mcmc.py:341 | a point is accepted iff every coordinate lies in the closed interval [min, max], so boundary values are valid |
| Closures.Posterior | src/py21cmmc/mcmc.py:355-362 | a flagged point gives negative infinity; any other point gives its likelihood |
| Closures.PosteriorShortCircuits | src/py21cmmc/mcmc.py:355-359 | for an out-of-bounds point the posterior is negative infinity whatever the simulator does, so the simulator is never consulted |
| Closures.PosteriorInsideBox | src/py21cmmc/mcmc.py:345-362 | inside the box the posterior equals the likelihood, and it is negative infinity iff the simulator raises ParameterError |

## Left out

- File I/O (`open`, YAML load and dump, `mkdir`). The descriptor read is the `Descriptor` parameter and the write outcome is a boolean. `mkdir` appears only as a trace entry. An OSError from `mkdir` other than FileExistsError, which would propagate, is not modelled.
- `path.join` semantics: the file prefix is the symbolic `Joined(datadir, model_name)`. It is built from the original `datadir`, before MultiNest appends its `/MultiNest/` suffix.
- The ImportError and OSError remapping for missing optional dependencies (pymultinest, zeus, the MultiNest library). It depends on the environment.
- The truncated-normal draw of zeus starting positions, including its indexing of the first `ndim` parameters. It is random and sits on scipy.
- The engines themselves (the `sampler_cls` class, CosmoHammerSampler by default, which the model records only by name; HDFStorageUtil, `pymultinest.run`, `zeus.EnsembleSampler`) and what they return. MultiNest's return value of 1 is not represented; the model ends at `StartEngine`.
- `ProcessPoolExecutor` and pool handling. The model records only which pool the default sampler receives. Python evaluates the default `ProcessPoolExecutor(...)` argument of `pop` even when a pool is supplied; that side effect is not modelled.
- Logging levels, `logger.warning` and `print`. They are side effects only.
- `LikelihoodComputationChain.__eq__` and the internals of `Params`. Both are replaced by value equality and an ordered parameter list.
- Chain.Setup: the modules' own setup routines are not modelled; `setup()` only marks the chain as set up.
- The continuation fix-up sets `_simulate` on the caller's own likelihood objects in place (mcmc.py:269-277; the chain holds the same objects, mcmc.py:51-52). The model returns a new chain and does not track the caller's objects, so it says nothing about a second call that reuses them.
- `build_computation_chain`'s default `setup=True` (mcmc.py:21): `run_mcmc` always passes `setup=False`, and the model takes `setup` as an explicit argument.
- `log_level_21CMMC` (default None), which only sets the logging level. `Run.DefaultArgs` gives the defaults of the other arguments.
- Closures.Posterior: the zeus closures are modelled for one point per call, that is `vectorize=False`. With `vectorize=True` zeus passes a batch of points (mcmc.py:156), and `prior` then compares whole rows against `params[i]` (mcmc.py:340-341); that case is not modelled.
- Closures.Likelihood: the simulator's float value (which could itself be -inf or NaN) is an exact real, so NegInf arises only from ParameterError.
- Closures.ZeusPrior: requires no more coordinates than parameters. With more, the source's `params[i]` would fail for a point that is in bounds in the leading coordinates.
- The conversion of the `params` dict into `Params` (lines 212 and 245-246). The model takes the parameters as an ordered list from the start.
