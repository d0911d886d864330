/** The front half of `run_mcmc`: backend validation, option reading, chain
    assembly, the continuation check, the simulate-flag fix-up, the descriptor
    write and `chain.setup()`, ending in the choice of one sampling engine.

    File-system effects become entries of a trace, in the order the source
    performs them, and the outcome of the one effect that can fail without
    stopping the run (the descriptor write) is a parameter.
 */
module Run {
  import opened Wrappers
  import opened Chain
  import opened Options

  /** `path.join(datadir, model_name)`, kept symbolic. */
  datatype Path = Joined(dir: string, name: string)

  /** The arguments of `run_mcmc` that this layer decides on. */
  datatype RunArgs = RunArgs(
    datadir: string,
    modelName: string,
    continueSampling: bool,
    reuseBurnin: bool,
    useMultinest: bool,
    useZeus: bool,
    samplerCls: string,  // the class the default branch constructs; CosmoHammerSampler unless given
    options: OptionMap)

  /** The arguments of a call that gives only the options: `run_mcmc`'s keyword
      defaults. */
  function DefaultArgs(options: OptionMap): RunArgs {
    RunArgs(datadir := ".", modelName := "21CMMC", continueSampling := true, reuseBurnin := true,
            useMultinest := false, useZeus := false, samplerCls := "CosmoHammerSampler",
            options := options)
  }

  /** What opening and loading `<file_prefix>.LCC.yml` yields: no file, an
      exception other than a missing file, or the stored chain. */
  datatype Descriptor = Absent | Unreadable | Present(stored: Chain)

  /** The exceptions that end the run. */
  datatype RunError =
    | BothBackendsRequested        // ValueError
    | ChainMismatch(prefix: Path)  // RuntimeError
    | DescriptorUnreadable(prefix: Path)
    | SamplerKeywordClash(keys: set<string>)  // TypeError from the default sampler's call

  /** The engine chosen and the settings this layer passes it. The chain travels
      beside it in `Dispatch`; the closures are those of the Closures module; the
      default sampler's storage is built from `filePrefix`. */
  datatype Backend =
    | DefaultSampler(samplerCls: string, continueSampling: bool, reuseBurnin: bool, filePrefix: Path,
                     sampler: DefaultSamplerOptions)
    | MultiNest(nestConfig: MultiNestConfig, nDims: nat, resume: bool, outputBasename: string)
    | Zeus(zeusConfig: ZeusConfig)

  /** Observable steps, in the order the source takes them. */
  datatype Effect =
    | MakeDir(dir: string)
    | ReadDescriptor(prefix: Path)
    | WriteDescriptor(prefix: Path, written: Chain, succeeded: bool)
    | SetupChain
    | StartEngine

  datatype Dispatch = Dispatch(backend: Backend, chain: Chain)

  datatype RunOutcome = RunOutcome(trace: seq<Effect>, result: Result<Dispatch, RunError>)

  /** The continuation check runs only for the default engine. */
  predicate ContinuationApplies(args: RunArgs) {
    args.continueSampling && !(args.useMultinest || args.useZeus)
  }

  /** The directory passed to `mkdir`: MultiNest output goes to a sub-directory;
      the file prefix is still built from the original `datadir`. */
  function OutputDir(args: RunArgs): string {
    if args.useMultinest then args.datadir + "/MultiNest/" else args.datadir
  }

  /** The chain as first assembled, before any fix-up or setup. */
  function InitialChain(cores: ModuleArg<CoreModule>, likes: ModuleArg<LikelihoodModule>,
                        params: ParamSet): Chain
  {
    BuildComputationChain(cores, likes, Some(params), false)
  }

  /** Dispatch on the backend flags; both set is rejected before this is reached. */
  function SelectBackend(args: RunArgs, params: ParamSet): (b: Backend)
    requires !(args.useMultinest && args.useZeus)
    ensures b.MultiNest? <==> args.useMultinest
    ensures b.Zeus? <==> args.useZeus
    ensures b.DefaultSampler? ==> b.filePrefix == Joined(args.datadir, args.modelName)
    ensures b.MultiNest? ==> b.nDims == |params.entries| && b.resume == args.continueSampling
    ensures b.MultiNest? ==> b.outputBasename == args.datadir + "/MultiNest/" + args.modelName
    ensures b.MultiNest? ==> b.nestConfig == ReadMultiNest(args.options)
    ensures b.Zeus? ==> b.zeusConfig == ReadZeus(args.options)
    ensures b.DefaultSampler? ==>
      && b.samplerCls == args.samplerCls
      && b.sampler == ReadDefaultSampler(args.options)
      && b.continueSampling == args.continueSampling
      && b.reuseBurnin == args.reuseBurnin
  {
    if args.useMultinest then
      MultiNest(ReadMultiNest(args.options), |params.entries|, args.continueSampling,
                OutputDir(args) + args.modelName)
    else if args.useZeus then
      Zeus(ReadZeus(args.options))
    else
      DefaultSampler(args.samplerCls, args.continueSampling, args.reuseBurnin, Joined(args.datadir, args.modelName),
                     ReadDefaultSampler(args.options))
  }

  /** The continuation check against what was loaded from disk, followed by the
      simulate-flag fix-up on success. A missing file counts as a match. */
  function CheckContinuation(disk: Descriptor, chain: Chain, prefix: Path): (r: Result<Chain, RunError>)
    ensures r.Failure? <==> disk.Unreadable? || (disk.Present? && disk.stored != chain)
    ensures r.Failure? && disk.Present? ==> r.error == ChainMismatch(prefix)
    // A load failure propagates as itself; it is never reported as a mismatch.
    ensures disk.Unreadable? ==> r == Failure(DescriptorUnreadable(prefix))
    ensures r.Success? ==> r.value == ClearSimulateFlags(chain)
  {
    match disk
    case Absent => Success(ClearSimulateFlags(chain))
    case Unreadable => Failure(DescriptorUnreadable(prefix))
    case Present(stored) =>
      if stored != chain then Failure(ChainMismatch(prefix)) else Success(ClearSimulateFlags(chain))
  }

  /** The continuation check where it applies; elsewhere the chain goes on as
      assembled. */
  function ContinuationStep(args: RunArgs, disk: Descriptor, chain: Chain): (r: Result<Chain, RunError>)
    ensures r.Success? ==> r.value.setupDone == chain.setupDone
    ensures !ContinuationApplies(args) ==> r == Success(chain)
  {
    if ContinuationApplies(args) then CheckContinuation(disk, chain, Joined(args.datadir, args.modelName))
    else Success(chain)
  }

  /** The effects before the descriptor write: `mkdir`, then the descriptor read
      when the continuation check applies. */
  function EarlyTrace(args: RunArgs): seq<Effect> {
    [MakeDir(OutputDir(args))] +
    (if ContinuationApplies(args) then [ReadDescriptor(Joined(args.datadir, args.modelName))] else [])
  }

  /** The options the default sampler would receive twice; empty for the other
      engines, which are called with fixed keywords only. */
  function SamplerClashes(args: RunArgs): set<string> {
    if args.useMultinest || args.useZeus then {} else KeywordClashes(ReadDefaultSampler(args.options))
  }

  /** Everything after the continuation decision: write the descriptor (its
      outcome is only logged), set the chain up, then call the engine, which
      raises TypeError when the default sampler would get a keyword twice. */
  function Finish(trace: seq<Effect>, chain: Chain, backend: Backend, prefix: Path,
                  writeOk: bool): RunOutcome
  {
    var setUp := trace + [WriteDescriptor(prefix, chain, writeOk), SetupChain];
    if backend.DefaultSampler? && KeywordClashes(backend.sampler) != {} then
      RunOutcome(setUp, Failure(SamplerKeywordClash(KeywordClashes(backend.sampler))))
    else
      RunOutcome(setUp + [StartEngine], Success(Dispatch(backend, Setup(chain))))
  }

  /** `run_mcmc` from `mkdir` on, once the flags have been checked and the chain
      assembled (with `setup=False`). `disk` is what reading the descriptor would
      yield and `writeOk` whether writing it succeeds. */
  function Proceed(chain: Chain, params: ParamSet, args: RunArgs, disk: Descriptor,
                   writeOk: bool): (r: RunOutcome)
    requires !(args.useMultinest && args.useZeus)
    ensures |r.trace| > 0 && r.trace[0] == MakeDir(OutputDir(args))
  {
    var prefix := Joined(args.datadir, args.modelName);
    var before := EarlyTrace(args);
    match ContinuationStep(args, disk, chain)
    case Failure(e) => RunOutcome(before, Failure(e))
    case Success(fixed) => Finish(before, fixed, SelectBackend(args, params), prefix, writeOk)
  }

  /** `run_mcmc` up to the engine call: the flag check, then chain assembly,
      then the rest. */
  function RunMcmc(cores: ModuleArg<CoreModule>, likes: ModuleArg<LikelihoodModule>,
                   params: ParamSet, args: RunArgs, disk: Descriptor, writeOk: bool): (r: RunOutcome)
    // Both alternative engines: ValueError before anything else happens.
    ensures args.useMultinest && args.useZeus ==> r == RunOutcome([], Failure(BothBackendsRequested))
    // Otherwise the output directory is created first.
    ensures !(args.useMultinest && args.useZeus) ==> |r.trace| > 0 && r.trace[0] == MakeDir(OutputDir(args))
  {
    if args.useMultinest && args.useZeus then
      RunOutcome([], Failure(BothBackendsRequested))
    else
      Proceed(InitialChain(cores, likes, params), params, args, disk, writeOk)
  }

  /** A call that sets no flags uses the default sampler and runs the
      continuation check against `./21CMMC.LCC.yml`, so the `_simulate` fix-up
      happens by default. */
  lemma DefaultCallContinues(options: OptionMap, params: ParamSet)
    ensures ContinuationApplies(DefaultArgs(options))
    ensures SelectBackend(DefaultArgs(options), params).DefaultSampler?
    ensures SelectBackend(DefaultArgs(options), params).filePrefix == Joined(".", "21CMMC")
    ensures EarlyTrace(DefaultArgs(options)) == [MakeDir("."), ReadDescriptor(Joined(".", "21CMMC"))]
  {
  }

  /** Where the continuation check applies, each way it can fail gives its own
      exception: a descriptor that cannot be loaded propagates the load error, and
      one holding a different chain raises RuntimeError. */
  lemma ContinuationErrors(chain: Chain, params: ParamSet, args: RunArgs, disk: Descriptor, writeOk: bool)
    requires ContinuationApplies(args)
    ensures var r := Proceed(chain, params, args, disk, writeOk);
      && (disk.Unreadable? ==> r.result == Failure(DescriptorUnreadable(Joined(args.datadir, args.modelName))))
      && (disk.Present? && disk.stored != chain ==>
            r.result == Failure(ChainMismatch(Joined(args.datadir, args.modelName))))
  {
  }

  /** The run fails exactly on the two flags, when the continuation check
      applies and the descriptor cannot be loaded or holds another chain, or
      when the default sampler would receive a keyword twice. */
  lemma RunFailsExactlyWhen(cores: ModuleArg<CoreModule>, likes: ModuleArg<LikelihoodModule>,
                            params: ParamSet, args: RunArgs, disk: Descriptor, writeOk: bool)
    ensures RunMcmc(cores, likes, params, args, disk, writeOk).result.Failure? <==>
      || (args.useMultinest && args.useZeus)
      || (ContinuationApplies(args) &&
          (disk.Unreadable? || (disk.Present? && disk.stored != InitialChain(cores, likes, params))))
      || SamplerClashes(args) != {}
  {
  }

  /** A failed continuation check is raised right after the directory is
      created and the descriptor read: the descriptor is not written, `setup()`
      is not called and no engine starts. */
  lemma FailedRunStopsEarly(chain: Chain, params: ParamSet, args: RunArgs, disk: Descriptor, writeOk: bool)
    requires !(args.useMultinest && args.useZeus)
    ensures var r := Proceed(chain, params, args, disk, writeOk);
      && (r.result.Failure? ==> StartEngine !in r.trace)
      && (r.result.Failure? && !r.result.error.SamplerKeywordClash? ==>
            && SetupChain !in r.trace
            && (forall e :: e in r.trace ==> !e.WriteDescriptor?)
            && r.trace == [MakeDir(args.datadir), ReadDescriptor(Joined(args.datadir, args.modelName))])
  {
    var r := Proceed(chain, params, args, disk, writeOk);
    var step := ContinuationStep(args, disk, chain);
    if step.Failure? {
      assert ContinuationApplies(args);
      assert r.trace == EarlyTrace(args);
    } else if r.result.Failure? {
      var tail := [WriteDescriptor(Joined(args.datadir, args.modelName), step.value, writeOk), SetupChain];
      assert r.trace == EarlyTrace(args) + tail;
    }
  }

  /** A keyword given both by name and among the options is only rejected by the
      default sampler's call: the descriptor has been written and `setup()`
      called by then, and the error names exactly the repeated keys. */
  lemma KeywordClashRaisesAfterSetup(chain: Chain, params: ParamSet, args: RunArgs, disk: Descriptor,
                                     writeOk: bool)
    requires !(args.useMultinest && args.useZeus)
    ensures var r := Proceed(chain, params, args, disk, writeOk);
      r.result.Failure? && r.result.error.SamplerKeywordClash? ==>
        && r.result.error.keys == SamplerClashes(args) != {}
        && |r.trace| >= 2
        && r.trace[|r.trace| - 2].WriteDescriptor?
        && r.trace[|r.trace| - 1] == SetupChain
        && StartEngine !in r.trace
  {
    var r := Proceed(chain, params, args, disk, writeOk);
    var step := ContinuationStep(args, disk, chain);
    if step.Success? && r.result.Failure? {
      var tail := [WriteDescriptor(Joined(args.datadir, args.modelName), step.value, writeOk), SetupChain];
      assert r.trace == EarlyTrace(args) + tail;
    }
  }

  /** A run that does not raise ends by writing the chain (not yet set up) to the
      descriptor, calling `setup()`, and starting the engine. */
  lemma SuccessfulRunShape(chain: Chain, params: ParamSet, args: RunArgs, disk: Descriptor, writeOk: bool)
    requires !(args.useMultinest && args.useZeus) && !chain.setupDone
    ensures var r := Proceed(chain, params, args, disk, writeOk);
      r.result.Success? ==>
        var d := r.result.value;
        && |r.trace| >= 3
        && r.trace[|r.trace| - 3] ==
             WriteDescriptor(Joined(args.datadir, args.modelName), d.chain.(setupDone := false), writeOk)
        && r.trace[|r.trace| - 2] == SetupChain
        && r.trace[|r.trace| - 1] == StartEngine
        && d.chain.setupDone
  {
    var r := Proceed(chain, params, args, disk, writeOk);
    var step := ContinuationStep(args, disk, chain);
    if step.Success? && r.result.Success? {
      var tail := [WriteDescriptor(Joined(args.datadir, args.modelName), step.value, writeOk), SetupChain,
                   StartEngine];
      assert r.trace == EarlyTrace(args) + tail;
      assert r.result.value.chain == Setup(step.value);
      assert r.result.value.chain.(setupDone := false) == step.value;
    }
  }

  /** The engine started is the one the flags ask for, with the default sampler
      when neither alternative is set, and it receives the options read for it
      and the run's own flags. */
  lemma DispatchFollowsFlags(chain: Chain, params: ParamSet, args: RunArgs, disk: Descriptor, writeOk: bool)
    requires !(args.useMultinest && args.useZeus)
    ensures var r := Proceed(chain, params, args, disk, writeOk);
      r.result.Success? ==>
        var b := r.result.value.backend;
        && (b.MultiNest? <==> args.useMultinest)
        && (b.Zeus? <==> args.useZeus)
        && (b.DefaultSampler? <==> !args.useMultinest && !args.useZeus)
        && (b.MultiNest? ==> b.nestConfig == ReadMultiNest(args.options) && b.resume == args.continueSampling)
        && (b.Zeus? ==> b.zeusConfig == ReadZeus(args.options))
        && (b.DefaultSampler? ==>
              && b.samplerCls == args.samplerCls
              && b.sampler == ReadDefaultSampler(args.options)
              && b.continueSampling == args.continueSampling
              && b.reuseBurnin == args.reuseBurnin
              && b.filePrefix == Joined(args.datadir, args.modelName))
  {
    var r := Proceed(chain, params, args, disk, writeOk);
    if r.result.Success? {
      assert r.result.value.backend == SelectBackend(args, params);
    }
  }

  /** Whether the descriptor write succeeds changes nothing but the recorded
      outcome of that write: the result is the same, and `setup()` is reached
      whenever the continuation check passes. */
  lemma WriteFailureIsNotFatal(chain: Chain, params: ParamSet, args: RunArgs, disk: Descriptor)
    requires !(args.useMultinest && args.useZeus)
    ensures Proceed(chain, params, args, disk, false).result == Proceed(chain, params, args, disk, true).result
    ensures var r := Proceed(chain, params, args, disk, false);
      && (ContinuationStep(args, disk, chain).Success? ==> SetupChain in r.trace)
      && (r.result.Success? ==> StartEngine in r.trace)
  {
    var r := Proceed(chain, params, args, disk, false);
    var step := ContinuationStep(args, disk, chain);
    if step.Success? {
      var setUp := EarlyTrace(args) + [WriteDescriptor(Joined(args.datadir, args.modelName), step.value, false),
                                       SetupChain];
      assert setUp[|EarlyTrace(args)| + 1] == SetupChain;
      if r.result.Success? {
        assert r.trace == setUp + [StartEngine];
        assert r.trace[|setUp|] == StartEngine;
      } else {
        assert r.trace == setUp;
      }
    }
  }

  /** On the default engine with `continue_sampling`, a run that goes ahead
      keeps the parameters and modules in order and forces every `_simulate`
      flag that exists to false. */
  lemma ContinuationForcesSimulateOff(chain: Chain, params: ParamSet, args: RunArgs, disk: Descriptor,
                                      writeOk: bool)
    requires ContinuationApplies(args)
    ensures var r := Proceed(chain, params, args, disk, writeOk);
      r.result.Success? ==>
        var c := r.result.value.chain;
        && c == Setup(ClearSimulateFlags(chain))
        && c.params == chain.params
        && c.cores == chain.cores
        && |c.likes| == |chain.likes|
        && forall i :: 0 <= i < |c.likes| ==>
             c.likes[i].id == chain.likes[i].id && c.likes[i].simulate != Some(true)
  {
    var step := ContinuationStep(args, disk, chain);
    if step.Success? {
      assert step.value == ClearSimulateFlags(chain);
    }
  }

  /** Without the continuation check (not requested, or another engine chosen)
      the descriptor is never read, and the run goes ahead with the modules
      exactly as supplied unless the default sampler would get a keyword twice. */
  lemma NoContinuationKeepsModules(chain: Chain, params: ParamSet, args: RunArgs, disk: Descriptor,
                                   writeOk: bool)
    requires !ContinuationApplies(args) && !(args.useMultinest && args.useZeus)
    ensures var r := Proceed(chain, params, args, disk, writeOk);
      && (r.result.Success? <==> SamplerClashes(args) == {})
      && (r.result.Success? ==> r.result.value.chain == Setup(chain))
      && ReadDescriptor(Joined(args.datadir, args.modelName)) !in r.trace
  {
    var prefix := Joined(args.datadir, args.modelName);
    var r := Proceed(chain, params, args, disk, writeOk);
    assert EarlyTrace(args) == [MakeDir(OutputDir(args))];
    if r.result.Success? {
      assert r.trace == [MakeDir(OutputDir(args)), WriteDescriptor(prefix, chain, writeOk), SetupChain, StartEngine];
    } else {
      assert r.trace == [MakeDir(OutputDir(args)), WriteDescriptor(prefix, chain, writeOk), SetupChain];
    }
  }

  /** A continued default run that finds no descriptor writes the chain with its
      `_simulate` flags cleared, right after `mkdir` and the read, and goes ahead
      unless the sampler would get a keyword twice. */
  lemma FirstContinuedRun(chain: Chain, params: ParamSet, args: RunArgs)
    requires ContinuationApplies(args)
    ensures var first := Proceed(chain, params, args, Absent, true);
      && |first.trace| >= 3
      && first.trace[2] == WriteDescriptor(Joined(args.datadir, args.modelName), ClearSimulateFlags(chain), true)
      && (first.result.Success? <==> SamplerClashes(args) == {})
  {
    var prefix := Joined(args.datadir, args.modelName);
    var first := Proceed(chain, params, args, Absent, true);
    assert EarlyTrace(args) == [MakeDir(OutputDir(args)), ReadDescriptor(prefix)];
    assert first.trace[..3] == [MakeDir(OutputDir(args)), ReadDescriptor(prefix),
                                WriteDescriptor(prefix, ClearSimulateFlags(chain), true)];
  }

  /** A continued default run whose first attempt found no descriptor, repeated
      with freshly constructed modules (the same script run again): the first
      run wrote the chain with `_simulate` already cleared, so when a likelihood
      module is created with `_simulate` set, the second run compares that
      stored chain against one that still has the flag set, and raises.
      (Chain equality here is whole-value equality.) */
  lemma SecondRunWithSimulatingLikelihoodRaises(chain: Chain, params: ParamSet, args: RunArgs,
                                                writeOk: bool, i: nat)
    requires ContinuationApplies(args)
    requires i < |chain.likes| && chain.likes[i].simulate == Some(true)
    ensures var first := Proceed(chain, params, args, Absent, true);
      && |first.trace| >= 3
      && first.trace[2].WriteDescriptor?
      && Proceed(chain, params, args, Present(first.trace[2].written), writeOk).result
           == Failure(ChainMismatch(Joined(args.datadir, args.modelName)))
  {
    FirstContinuedRun(chain, params, args);
    var written := ClearSimulateFlags(chain);
    assert written.likes[i].simulate == Some(false);
    assert written != chain;
  }

  /** The same repetition ends exactly as the first run did when no module had
      `_simulate` set. */
  lemma SecondRunWithoutSimulatingLikelihoodContinues(chain: Chain, params: ParamSet, args: RunArgs,
                                                      writeOk: bool)
    requires ContinuationApplies(args)
    requires forall i :: 0 <= i < |chain.likes| ==> chain.likes[i].simulate != Some(true)
    ensures var first := Proceed(chain, params, args, Absent, true);
      && |first.trace| >= 3
      && first.trace[2].WriteDescriptor?
      && Proceed(chain, params, args, Present(first.trace[2].written), writeOk).result == first.result
  {
    FirstContinuedRun(chain, params, args);
    ClearSimulateFlagsFixedPoint(chain);
  }
}
