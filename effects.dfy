/**
 * What each handler of a stage does, as a function of the stage's setup
 * (what `_prepare` and the constructor fixed) and of the attributes the
 * handlers set; and what the dispatch loop of `_build` does, as the
 * handlers of the dispatch plan run one after the other until one raises.
 * The methods of `Recipes.Stage` are proved to compute exactly these.
 */
module Effects {
  import opened Outcomes
  import opened Placeholders
  import opened Formats
  import opened Versions
  import opened Inputs
  import opened Instructions
  import opened GromacsOptions
  import opened Engines
  import opened Stages

  /** The stage-wide options `_get_gromacs_cmake_opts` computes from the template for the given flags. */
  function StageOpts(template: string, mpi: bool, fftw: bool, cuda: bool, regtest: bool, double: bool): string {
    ReplaceAll(template, GromacsBindings(mpi, fftw, cuda, regtest, double))
  }

  /** The value shape a handler expects: a string for a version, a list for the engines. */
  predicate HandlerArg(tool: string, value: OptValue) {
    && (tool in VersionTools ==> value.Str?)
    && (tool == "engines" ==> value.List?)
  }

  /** `self.previous_stage.wrapper`: an AttributeError without a previous stage or when it set no wrapper. */
  function PreviousWrapper(previous: Option<Handoff>): Result<string> {
    if previous.Some? && previous.value.wrapper.Some? then Ok(previous.value.wrapper.value)
    else Err(MissingAttribute("wrapper"))
  }

  /**
   * What the handlers read and never write: the stage kind, the
   * configuration, the previous stage, the CMake template, and the flags
   * `_prepare` recorded.
   */
  datatype StageSetup = StageSetup(
    kind: StageKind,
    cfg: Config,
    previous: Option<Handoff>,
    cmakeOpts: string,
    doublePrecision: Option<OptValue>,
    cudaEnabled: bool,
    regtestEnabled: OptValue,
    mpiEnabled: bool,
    fftwInstalled: bool)

  /** What the handlers write: the instructions of the stage and the attributes later handlers read. */
  datatype StageAttrs = StageAttrs(
    instrs: seq<Instr>,
    compiler: Option<Instr>,
    sourceDirectory: Option<string>,
    buildDirectory: Option<FormatString>,
    prefix: Option<string>,
    buildEnvironment: Option<map<string, string>>,
    url: Option<string>,
    gromacsCmakeOpts: Option<string>,
    wrapper: Option<string>,
    preconfigure: Option<seq<string>>,
    check: Option<bool>)

  /** A stage before its first handler: no instruction and no attribute set. */
  const NoAttrs: StageAttrs := StageAttrs([], None, None, None, None, None, None, None, None, None, None)

  /** The attributes the `engines` loop reads. */
  function ContextOf(s: StageSetup, a: StageAttrs): EngineContext {
    EngineContext(s.mpiEnabled, s.doublePrecision, a.gromacsCmakeOpts, a.sourceDirectory, a.buildDirectory,
                  a.prefix, a.buildEnvironment, a.url, a.preconfigure, a.check)
  }

  // ---------------------------------------------------------------- one handler

  /** `format`: the deployment stage's `_configure` sequence (cut short when the previous stage has no wrapper). */
  function FormatEffect(s: StageSetup, a: StageAttrs): (StageAttrs, Outcome) {
    if s.kind != Deployment then (a, Pass)
    else
      var w := PreviousWrapper(s.previous);
      if w.Ok? then (a.(instrs := a.instrs + DeployInstrs(s.cfg.installationDirectory, w.value)), Pass)
      else (a.(instrs := a.instrs + DeployHead(s.cfg.installationDirectory)), Fail(w.error))
  }

  /** `ubuntu` and `centos`: the base image and the previous stage's runtime, unless CUDA is on. */
  function BaseImageEffect(s: StageSetup, image: string, a: StageAttrs): StageAttrs {
    if s.cudaEnabled then a
    else a.(instrs := a.instrs + [BaseImage(image, StageName(s.kind))] + RuntimeOf(s.previous))
  }

  /** `cmake`: the CMake block once the version gate passes. */
  function CmakeEffect(s: StageSetup, version: string, a: StageAttrs): (StageAttrs, Outcome) {
    var vc := VersionChecked("CMake", s.cfg.cmakeMinRequiredVersion, version, s.cfg.strictVersion);
    if vc.Err? then (a, Fail(vc.error))
    else (a.(instrs := a.instrs + [Instr.Cmake(true, version)]), Pass)
  }

  /** `gcc`: the GNU compiler becomes the stage's compiler and is appended. */
  function GccEffect(version: string, a: StageAttrs): StageAttrs {
    a.(compiler := Some(Gnu(true, false, version)), instrs := a.instrs + [Gnu(true, false, version)])
  }

  /** `fftw`: double precision, then a compiler with a toolchain, then the FFTW block. */
  function FftwEffect(s: StageSetup, version: string, a: StageAttrs): (StageAttrs, Outcome) {
    if s.doublePrecision.None? then (a, Fail(MissingAttribute("double_precision_enabled")))
    else if a.compiler.None? then (a, Fail(MissingAttribute("compiler")))
    else if !HasToolchain(a.compiler.value) then (a, Fail(NotABuildingBlock))
    else
      var opts := FftwOptions(Truthy(s.doublePrecision.value));
      (a.(instrs := a.instrs + [Instr.Fftw(ToolchainOf(a.compiler.value), opts, version)]), Pass)
  }

  /** `openmpi`: the version gate, then a compiler with a toolchain, then the OpenMPI block. */
  function OpenmpiEffect(s: StageSetup, version: string, a: StageAttrs): (StageAttrs, Outcome) {
    var vc := VersionChecked("openmpi", s.cfg.openmpiMinRequiredVersion, version, s.cfg.strictVersion);
    if vc.Err? then (a, Fail(vc.error))
    else if a.compiler.None? then (a, Fail(MissingAttribute("compiler")))
    else if !HasToolchain(a.compiler.value) then (a, Fail(NotABuildingBlock))
    else (a.(instrs := a.instrs + [OpenMpi(s.cudaEnabled, false, ToolchainOf(a.compiler.value), version)]), Pass)
  }

  /**
   * `gromacs`: the wget package and the source attributes; then the
   * stage-wide options (raising when double precision was never recorded,
   * after the build environment was written) and the wrapper name.
   */
  function GromacsEffect(s: StageSetup, version: string, a: StageAttrs): (StageAttrs, Outcome) {
    var env := if s.fftwInstalled then map["CMAKE_PREFIX_PATH" := FftwPrefixPath] else map[];
    var b := a.(instrs := a.instrs + [Packages(OsPackages)],
                sourceDirectory := Some(SourceDirectory(version)),
                buildDirectory := Some(BuildDirectoryFormat),
                prefix := Some(s.cfg.installationDirectory),
                buildEnvironment := Some(env),
                url := Some(SourceUrl(version)));
    if s.doublePrecision.None? then (b, Fail(MissingAttribute("double_precision_enabled")))
    else
      var opts := StageOpts(s.cmakeOpts, s.mpiEnabled, s.fftwInstalled, s.cudaEnabled,
                            Truthy(s.regtestEnabled), Truthy(s.doublePrecision.value));
      var c := b.(gromacsCmakeOpts := Some(opts));
      var ws := WrapperSuffix(s.cfg, s.mpiEnabled, s.doublePrecision);
      if ws.Ok? then (c.(wrapper := Some("gmx" + ws.value)), Pass) else (c, Fail(ws.error))
  }

  /** `regtest`: the MPI launcher flags when MPI is on, then the preconfigure commands and the check flag. */
  function RegtestEffect(s: StageSetup, a: StageAttrs): (StageAttrs, Outcome) {
    if s.mpiEnabled && a.gromacsCmakeOpts.None? then (a, Fail(MissingAttribute("gromacs_cmake_opts")))
    else
      var opts := if s.mpiEnabled then Some(a.gromacsCmakeOpts.value + RegtestMpiOptions) else a.gromacsCmakeOpts;
      (a.(gromacsCmakeOpts := opts, preconfigure := Some(RegtestPreconfigure), check := Some(true)), Pass)
  }

  /** `engines`: one build per engine until the first that raises. */
  function EnginesEffect(s: StageSetup, engines: seq<string>, a: StageAttrs): (StageAttrs, Outcome) {
    var run := EngineRun(s.cfg, ContextOf(s, a), engines);
    (a.(instrs := a.instrs + run.0), run.1)
  }

  /** The handlers every stage has. */
  function CommonEffect(s: StageSetup, tool: string, value: OptValue, a: StageAttrs): (StageAttrs, Outcome)
    requires tool in CommonHandlers && HandlerArg(tool, value)
  {
    if tool == "format" then FormatEffect(s, a)
    else if tool == "ubuntu" then (BaseImageEffect(s, "ubuntu:" + value.s, a), Pass)
    else if tool == "centos" then (BaseImageEffect(s, "centos:centos" + value.s, a), Pass)
    else if tool == "cuda" then (a, Fail(NotImplemented("Cuda")))
    else if tool == "cmake" then CmakeEffect(s, value.s, a)
    else (GccEffect(value.s, a), Pass)
  }

  /** The handlers only the development stage has. */
  function DevelopmentEffect(s: StageSetup, tool: string, value: OptValue, a: StageAttrs): (StageAttrs, Outcome)
    requires tool in {"fftw", "openmpi", "impi"} && HandlerArg(tool, value)
  {
    if tool == "fftw" then FftwEffect(s, value.s, a)
    else if tool == "openmpi" then OpenmpiEffect(s, value.s, a)
    else (a, Fail(NotImplemented("impi")))
  }

  /** The handlers only the application stage has. */
  function ApplicationEffect(s: StageSetup, tool: string, value: OptValue, a: StageAttrs): (StageAttrs, Outcome)
    requires tool in {"gromacs", "regtest", "engines"} && HandlerArg(tool, value)
  {
    if tool == "gromacs" then GromacsEffect(s, value.s, a)
    else if tool == "regtest" then RegtestEffect(s, a)
    else EnginesEffect(s, value.items, a)
  }

  /**
   * `method(self.args[tool])` for a handler of the stage: the attributes
   * it leaves and its outcome. Every handler only appends instructions.
   */
  function HandlerEffect(s: StageSetup, tool: string, value: OptValue, a: StageAttrs): (r: (StageAttrs, Outcome))
    requires tool in Handlers(s.kind) && HandlerArg(tool, value)
    ensures a.instrs <= r.0.instrs
  {
    if tool in CommonHandlers then CommonEffect(s, tool, value, a)
    else if s.kind == Development then DevelopmentEffect(s, tool, value, a)
    else ApplicationEffect(s, tool, value, a)
  }

  // ---------------------------------------------------------------- the dispatch loop

  /** Every key of `plan` is in the options, has a handler, and its value has the shape the handler takes. */
  predicate Dispatchable(kind: StageKind, args: Args, plan: seq<string>) {
    forall k :: 0 <= k < |plan| ==> plan[k] in args && plan[k] in Handlers(kind) && HandlerArg(plan[k], args[plan[k]])
  }

  /** Options of the command line's shapes make the whole dispatch plan dispatchable. */
  lemma DispatchableOf(order: seq<string>, args: Args, kind: StageKind)
    requires WellShaped(args)
    ensures Dispatchable(kind, args, DispatchPlan(order, args, kind))
  {
    var plan := DispatchPlan(order, args, kind);
    forall k | 0 <= k < |plan|
      ensures plan[k] in args && plan[k] in Handlers(kind) && HandlerArg(plan[k], args[plan[k]])
    {
      DispatchPlanMembers(order, args, kind, plan[k]);
    }
  }

  /**
   * The handlers of `plan`, first to last, starting from the attributes
   * `a`, until one raises: the attributes left, the outcome, and how many
   * handlers ran (the one that raised included). Only instructions are
   * ever appended; a run that passed ran every handler.
   */
  function Run(s: StageSetup, args: Args, plan: seq<string>, a: StageAttrs): (r: (StageAttrs, Outcome, nat))
    requires Dispatchable(s.kind, args, plan)
    ensures r.2 <= |plan|
    ensures r.1.Pass? ==> r.2 == |plan|
    ensures r.1.Fail? ==> r.2 >= 1
    ensures a.instrs <= r.0.instrs
    decreases |plan|, 1
  {
    if plan == [] then (a, Pass, 0) else RunLast(s, args, plan, a)
  }

  /** A non-empty plan: its last handler runs on what the others left, unless one of them raised. */
  function RunLast(s: StageSetup, args: Args, plan: seq<string>, a: StageAttrs): (r: (StageAttrs, Outcome, nat))
    requires Dispatchable(s.kind, args, plan) && plan != []
    ensures r.2 <= |plan|
    ensures r.1.Pass? ==> r.2 == |plan|
    ensures r.1.Fail? ==> r.2 >= 1
    ensures a.instrs <= r.0.instrs
    decreases |plan|, 0
  {
    var r := Run(s, args, plan[..|plan| - 1], a);
    if r.1.Fail? then r
    else
      var t := plan[|plan| - 1];
      var e := HandlerEffect(s, t, args[t], r.0);
      (e.0, e.1, |plan|)
  }

  /** One more key on the plan: its handler runs on what the plan left, unless the plan already raised. */
  lemma RunNext(s: StageSetup, args: Args, plan: seq<string>, t: string, a: StageAttrs)
    requires Dispatchable(s.kind, args, plan)
    requires t in args && t in Handlers(s.kind) && HandlerArg(t, args[t])
    ensures Dispatchable(s.kind, args, plan + [t])
    ensures var r := Run(s, args, plan, a);
      Run(s, args, plan + [t], a)
        == if r.1.Fail? then r
           else var e := HandlerEffect(s, t, args[t], r.0); (e.0, e.1, |plan| + 1)
  {
    assert (plan + [t])[..|plan|] == plan;
    assert Run(s, args, plan + [t], a) == RunLast(s, args, plan + [t], a);
  }

  /** Once a prefix of the plan has raised, the rest of the plan never runs. */
  lemma {:induction false} RunStops(s: StageSetup, args: Args, plan: seq<string>, i: nat, a: StageAttrs)
    requires Dispatchable(s.kind, args, plan) && i <= |plan|
    requires Run(s, args, plan[..i], a).1.Fail?
    ensures Run(s, args, plan, a) == Run(s, args, plan[..i], a)
    decreases |plan|
  {
    if i < |plan| {
      var init := plan[..|plan| - 1];
      assert init[..i] == plan[..i];
      RunStops(s, args, init, i, a);
      assert Run(s, args, plan, a) == RunLast(s, args, plan, a);
    } else {
      assert plan[..i] == plan;
    }
  }

  /**
   * A run that raised stopped at its `n`-th handler: the handlers before
   * it all passed, and running the plan up to it gives the final
   * attributes and the exception.
   */
  predicate StoppedAt(s: StageSetup, args: Args, plan: seq<string>, a: StageAttrs, n: nat, r: (StageAttrs, Outcome))
    requires Dispatchable(s.kind, args, plan)
  {
    && 1 <= n <= |plan|
    && r.1.Fail?
    && Run(s, args, plan[..n - 1], a).1.Pass?
    && Run(s, args, plan[..n], a) == (r.0, r.1, n)
  }

  /** The handler a run stopped at is the one that raised, run on what the handlers before it left. */
  lemma StoppedAtHandler(s: StageSetup, args: Args, plan: seq<string>, a: StageAttrs, n: nat, r: (StageAttrs, Outcome))
    requires Dispatchable(s.kind, args, plan) && StoppedAt(s, args, plan, a, n, r)
    ensures HandlerEffect(s, plan[n - 1], args[plan[n - 1]], Run(s, args, plan[..n - 1], a).0) == r
  {
    assert plan[..n][..n - 1] == plan[..n - 1];
    assert Run(s, args, plan[..n], a) == RunLast(s, args, plan[..n], a);
  }

  /** A run that raised stopped at the last handler it ran. */
  lemma {:induction false} RunFailsAtLast(s: StageSetup, args: Args, plan: seq<string>, a: StageAttrs)
    requires Dispatchable(s.kind, args, plan) && Run(s, args, plan, a).1.Fail?
    ensures var r := Run(s, args, plan, a); StoppedAt(s, args, plan, a, r.2, (r.0, r.1))
    decreases |plan|
  {
    var init := plan[..|plan| - 1];
    var r0 := Run(s, args, init, a);
    assert Run(s, args, plan, a) == RunLast(s, args, plan, a);
    if r0.1.Fail? {
      RunFailsAtLast(s, args, init, a);
      assert init[..r0.2 - 1] == plan[..r0.2 - 1] && init[..r0.2] == plan[..r0.2];
    } else {
      assert plan[..|plan|] == plan;
    }
  }

  /**
   * The attributes `attrs`, the outcome `o` and the trace `calls` are what
   * the handlers of `plan` leave, run in order from `a` until one raises:
   * `calls` holds the handlers that ran, the whole plan when none raised,
   * and a run that raised stopped at the last handler it called.
   */
  predicate Ran(s: StageSetup, args: Args, plan: seq<string>, a: StageAttrs, attrs: StageAttrs, o: Outcome, calls: seq<string>) {
    && Dispatchable(s.kind, args, plan)
    && var run := Run(s, args, plan, a);
       && attrs == run.0 && o == run.1 && calls == plan[..run.2]
       && (o.Pass? ==> calls == plan)
       && (o.Fail? ==> calls != [] && StoppedAt(s, args, plan, a, |calls|, (attrs, o)))
  }

  /** A run in which every handler passed traced the whole plan. */
  lemma RanPasses(s: StageSetup, args: Args, plan: seq<string>, a: StageAttrs)
    requires Dispatchable(s.kind, args, plan) && Run(s, args, plan, a).1.Pass?
    ensures Ran(s, args, plan, a, Run(s, args, plan, a).0, Pass, plan)
  {
    assert plan[..|plan|] == plan;
  }

  /**
   * The dispatch loop raised at the handler of key `i` of the tool order,
   * having traced the plan up to that key: the run of the whole plan is
   * that run, and it stopped there.
   */
  lemma PlanFails(s: StageSetup, order: seq<string>, args: Args, i: nat, a: StageAttrs)
    requires WellShaped(args) && i < |order|
    requires var p := DispatchPlan(order[..i + 1], args, s.kind);
      Dispatchable(s.kind, args, p) && var r := Run(s, args, p, a); r.1.Fail? && r.2 == |p|
    ensures var plan, p := DispatchPlan(order, args, s.kind), DispatchPlan(order[..i + 1], args, s.kind);
      var r := Run(s, args, p, a);
      Ran(s, args, plan, a, r.0, r.1, p)
  {
    var plan, p := DispatchPlan(order, args, s.kind), DispatchPlan(order[..i + 1], args, s.kind);
    DispatchableOf(order, args, s.kind);
    DispatchPlanPrefix(order, args, s.kind, i + 1);
    assert p == plan[..|p|];
    RunStops(s, args, plan, |p|, a);
    RunFailsAtLast(s, args, plan, a);
  }
}
