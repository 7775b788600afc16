/**
 * The stage builders of `container/recipes.py`: one class for StageMixin
 * and its three subclasses (the stage kind picks the handlers and the
 * stage name). Constructing a stage runs `_build`: the options are
 * prepared, then every option the fixed tool order names and the stage
 * has a handler for is dispatched, each handler appending instructions to
 * the stage and setting the attributes later handlers read. Attributes
 * that only some handler sets are Option fields (None: not set yet, and
 * reading it is an AttributeError).
 */
module Recipes {
  import opened Outcomes
  import opened Strings
  import opened Placeholders
  import opened Formats
  import opened Versions
  import opened Inputs
  import opened Instructions
  import opened GromacsOptions
  import opened Engines
  import opened Stages
  import opened Effects

  /** `ApplicationStage._cmake_opts`: the template as the string the class holds. */
  const CmakeOpts: string := Render(CmakeOptsTemplate)

  class Stage {
    const kind: StageKind
    const cfg: Config
    const previous: Option<Handoff>
    /** The class attribute `_cmake_opts` the stage reads its template from. */
    const cmakeOpts: string

    /** `self.args`, drained by `_prepare`. */
    var args: Args
    /** `self.stage`: the instructions appended so far. */
    var instrs: seq<Instr>

    // set by _prepare
    var doublePrecision: Option<OptValue>
    var cudaEnabled: bool
    var regtestEnabled: OptValue
    var mpiEnabled: bool
    var fftwInstalled: bool

    // set by gcc
    var compiler: Option<Instr>

    // set by gromacs
    var sourceDirectory: Option<string>
    var buildDirectory: Option<FormatString>
    var prefix: Option<string>
    var buildEnvironment: Option<map<string, string>>
    var url: Option<string>
    var gromacsCmakeOpts: Option<string>
    var wrapper: Option<string>

    // set by regtest
    var preconfigure: Option<seq<string>>
    var check: Option<bool>

    /** The handlers called so far, in order. */
    ghost var calls: seq<string>

    /** A stage as `__init__` leaves it before `_build`: no instruction, no call, no lazily set attribute. */
    ghost predicate Unbuilt()
      reads this
    {
      && instrs == [] && calls == []
      && doublePrecision.None? && compiler.None?
      && sourceDirectory.None? && buildDirectory.None? && prefix.None? && buildEnvironment.None?
      && url.None? && gromacsCmakeOpts.None? && wrapper.None? && preconfigure.None? && check.None?
    }

    /**
     * What `_prepare` leaves when it starts from the options `a0`: the keys
     * it consumes are gone and every other entry is as it was; double
     * precision is the removed `double` value (unset when there was none);
     * CUDA is on iff the `cuda` value is truthy; in the application stage,
     * regtest is the raw `regtest` value (False when absent), MPI is on iff
     * the `openmpi` or the `impi` value is truthy, and FFTW is installed
     * iff the `fftw` value is truthy.
     */
    ghost predicate Prepared(a0: Args)
      reads this`args, this`doublePrecision, this`cudaEnabled, this`regtestEnabled, this`mpiEnabled, this`fftwInstalled
    {
      && args == a0 - Removed(kind)
      && doublePrecision == (if "double" in a0 then Some(a0["double"]) else None)
      && cudaEnabled == Truthy(Get(a0, "cuda", Null))
      && (kind == Application ==>
            && regtestEnabled == Get(a0, "regtest", Flag(false))
            && mpiEnabled == (Truthy(Get(a0, "openmpi", Null)) || Truthy(Get(a0, "impi", Null)))
            && fftwInstalled == Truthy(Get(a0, "fftw", Null)))
    }

    /** What the stage hands the next one. */
    function AsPrevious(): Handoff
      reads this`instrs, this`wrapper
    {
      Handoff(instrs, wrapper)
    }

    /** The attributes the `engines` loop reads. */
    function Ctx(): EngineContext
      reads this`mpiEnabled, this`doublePrecision, this`gromacsCmakeOpts, this`sourceDirectory,
            this`buildDirectory, this`prefix, this`buildEnvironment, this`url, this`preconfigure, this`check
    {
      EngineContext(mpiEnabled, doublePrecision, gromacsCmakeOpts, sourceDirectory, buildDirectory,
                    prefix, buildEnvironment, url, preconfigure, check)
    }

    /** What the handlers read and never write. */
    function Setup(): StageSetup
      reads this`doublePrecision, this`cudaEnabled, this`regtestEnabled, this`mpiEnabled, this`fftwInstalled
    {
      StageSetup(kind, cfg, previous, cmakeOpts, doublePrecision, cudaEnabled, regtestEnabled, mpiEnabled, fftwInstalled)
    }

    /** What the handlers write. */
    function Attributes(): StageAttrs
      reads this`instrs, this`compiler, this`sourceDirectory, this`buildDirectory, this`prefix,
            this`buildEnvironment, this`url, this`gromacsCmakeOpts, this`wrapper, this`preconfigure, this`check
    {
      StageAttrs(instrs, compiler, sourceDirectory, buildDirectory, prefix, buildEnvironment, url,
                 gromacsCmakeOpts, wrapper, preconfigure, check)
    }

    constructor (kind: StageKind, cfg: Config, args: Args, previous: Option<Handoff>)
      ensures this.kind == kind && this.cfg == cfg && this.args == args && this.previous == previous
      ensures cmakeOpts == CmakeOpts
      ensures Unbuilt()
    {
      this.kind := kind;
      cmakeOpts := CmakeOpts;
      this.cfg := cfg;
      this.previous := previous;
      this.args := args;
      instrs := [];
      calls := [];
      doublePrecision := None;
      cudaEnabled := false;
      regtestEnabled := Flag(false);
      mpiEnabled := false;
      fftwInstalled := false;
      compiler := None;
      sourceDirectory := None;
      buildDirectory := None;
      prefix := None;
      buildEnvironment := None;
      url := None;
      gromacsCmakeOpts := None;
      wrapper := None;
      preconfigure := None;
      check := None;
    }

    /**
     * `StageMixin.__init__`: a new stage of the given kind that has run
     * `_build`. Its options are prepared, and its instructions and
     * attributes are what the handlers of the dispatch plan leave, run in
     * order from an empty stage; it comes back with the exception that
     * ended `_build`, raised by the last handler called, if one did.
     */
    static method Create(kind: StageKind, cfg: Config, args: Args, previous: Option<Handoff>)
      returns (s: Stage, o: Outcome)
      requires WellShaped(args - Removed(kind))
      ensures fresh(s) && s.kind == kind && s.cfg == cfg && s.previous == previous && s.cmakeOpts == CmakeOpts
      ensures s.Prepared(args)
      ensures Ran(s.Setup(), s.args, DispatchPlan(cfg.toolsOrder, s.args, kind), NoAttrs, s.Attributes(), o, s.calls)
    {
      s := new Stage(kind, cfg, args, previous);
      o := s.Build();
    }

    /**
     * `_build`: prepare the options, then call the handler of every key of
     * the tool order that the options hold and the stage has a handler
     * for, in that order, stopping at the first exception.
     */
    method Build() returns (o: Outcome)
      requires Unbuilt() && WellShaped(args - Removed(kind))
      modifies this
      ensures Prepared(old(args))
      ensures Ran(Setup(), args, DispatchPlan(cfg.toolsOrder, args, kind), NoAttrs, Attributes(), o, calls)
    {
      instrs := [];
      Prepare();
      o := CallHandlers(NoAttrs);
    }

    /**
     * The loop of `_build`: every handler of the dispatch plan in turn, until
     * one raises. The instructions only grow; the stage ends as the run of
     * the plan leaves it, a run that raised stopped at the last handler it
     * called, and the options and what `_prepare` recorded are unchanged.
     */
    method CallHandlers(ghost a0: StageAttrs) returns (o: Outcome)
      requires calls == [] && WellShaped(args) && Attributes() == a0
      modifies this`instrs, this`compiler, this`sourceDirectory, this`buildDirectory, this`prefix,
               this`buildEnvironment, this`url, this`gromacsCmakeOpts, this`wrapper,
               this`preconfigure, this`check, this`calls
      ensures Ran(Setup(), args, DispatchPlan(cfg.toolsOrder, args, kind), a0, Attributes(), o, calls)
      ensures old(instrs) <= instrs
      ensures (args, Setup()) == old((args, Setup()))
    {
      var order := cfg.toolsOrder;
      DispatchableOf(order, args, kind);
      for i := 0 to |order|
        invariant calls == DispatchPlan(order[..i], args, kind)
        invariant Dispatchable(kind, args, calls)
        invariant Run(Setup(), args, calls, a0) == (Attributes(), Pass, |calls|)
      {
        var tool := order[i];
        DispatchPlanStep(order, args, kind, i);
        if tool in args && tool in Handlers(kind) {
          o := DispatchNext(tool, args[tool], a0);
          if o.Fail? {
            PlanFails(Setup(), order, args, i, a0);
            return;
          }
        }
      }
      assert order[..|order|] == order;
      RanPasses(Setup(), args, calls, a0);
      return Pass;
    }

    /**
     * `_prepare` of the stage's class: the application stage runs its own
     * (which ends in the common one), the others the common one.
     */
    method Prepare()
      modifies this`args, this`doublePrecision, this`cudaEnabled, this`regtestEnabled, this`mpiEnabled, this`fftwInstalled
      ensures args == old(args) - Removed(kind)
      ensures doublePrecision == if "double" in old(args) then Some(old(args)["double"]) else old(doublePrecision)
      ensures cudaEnabled == Truthy(Get(old(args), "cuda", Null))
      ensures kind == Application ==>
                && regtestEnabled == Get(old(args), "regtest", Flag(false))
                && mpiEnabled == (Truthy(Get(old(args), "openmpi", Null)) || Truthy(Get(old(args), "impi", Null)))
                && fftwInstalled == Truthy(Get(old(args), "fftw", Null))
      ensures kind != Application ==>
                regtestEnabled == old(regtestEnabled) && mpiEnabled == old(mpiEnabled) && fftwInstalled == old(fftwInstalled)
      ensures old(doublePrecision).None? ==> Prepared(old(args))
      ensures Attributes() == old(Attributes()) && calls == old(calls)
    {
      if kind == Application {
        PrepareApplication();
      } else {
        PrepareCommon();
      }
    }

    /**
     * `StageMixin._prepare`: double precision is taken out of the options
     * when given, and CUDA is on iff the `cuda` value is truthy.
     */
    method PrepareCommon()
      modifies this`args, this`doublePrecision, this`cudaEnabled
      ensures args == old(args) - {"double"}
      ensures doublePrecision == if "double" in old(args) then Some(old(args)["double"]) else old(doublePrecision)
      ensures cudaEnabled == Truthy(Get(old(args), "cuda", Null))
    {
      if "double" in args {
        doublePrecision := Some(Get(args, "double", Flag(false)));
        args := args - {"double"};
      } else {
        assert args == args - {"double"};
      }
      cudaEnabled := Truthy(Get(args, "cuda", Null));
    }

    /**
     * `ApplicationStage._prepare`: regtest, MPI and FFTW are read, the
     * openmpi, impi and fftw keys are deleted, then the common part runs.
     */
    method PrepareApplication()
      modifies this`args, this`doublePrecision, this`cudaEnabled, this`regtestEnabled, this`mpiEnabled, this`fftwInstalled
      ensures args == old(args) - Removed(Application)
      ensures doublePrecision == if "double" in old(args) then Some(old(args)["double"]) else old(doublePrecision)
      ensures cudaEnabled == Truthy(Get(old(args), "cuda", Null))
      ensures regtestEnabled == Get(old(args), "regtest", Flag(false))
      ensures mpiEnabled == (Truthy(Get(old(args), "openmpi", Null)) || Truthy(Get(old(args), "impi", Null)))
      ensures fftwInstalled == Truthy(Get(old(args), "fftw", Null))
    {
      regtestEnabled := Get(args, "regtest", Flag(false));
      mpiEnabled := Truthy(Get(args, "openmpi", Null)) || Truthy(Get(args, "impi", Null));
      fftwInstalled := Truthy(Get(args, "fftw", Null));
      DeleteKeys(["openmpi", "impi", "fftw"]);
      assert args == old(args) - {"openmpi", "impi", "fftw"};
      assert Get(args, "cuda", Null) == Get(old(args), "cuda", Null);
      PrepareCommon();
    }

    /** `for key in keys: if key in self.args: del self.args[key]`. */
    method DeleteKeys(keys: seq<string>)
      modifies this`args
      ensures forall k :: k in args <==> k in old(args) && k !in keys
      ensures forall k :: k in args ==> args[k] == old(args)[k]
    {
      for i := 0 to |keys|
        invariant forall k :: k in args <==> k in old(args) && k !in keys[..i]
        invariant forall k :: k in args ==> args[k] == old(args)[k]
      {
        if keys[i] in args {
          args := args - {keys[i]};
        }
      }
      assert keys[..|keys|] == keys;
    }

    /** One more handler of the dispatch loop: the run traced so far, from `a0`, extended by `tool`. */
    method DispatchNext(tool: string, value: OptValue, ghost a0: StageAttrs) returns (o: Outcome)
      requires tool in args && value == args[tool] && tool in Handlers(kind) && HandlerArg(tool, value)
      requires Dispatchable(kind, args, calls) && Run(Setup(), args, calls, a0) == (Attributes(), Pass, |calls|)
      modifies this`instrs, this`compiler, this`sourceDirectory, this`buildDirectory, this`prefix,
               this`buildEnvironment, this`url, this`gromacsCmakeOpts, this`wrapper,
               this`preconfigure, this`check, this`calls
      ensures calls == old(calls) + [tool]
      ensures Dispatchable(kind, args, calls) && Run(Setup(), args, calls, a0) == (Attributes(), o, |calls|)
    {
      ghost var st := Setup();
      RunNext(st, args, calls, tool, a0);
      o := Dispatch(tool, value);
      assert Setup() == st;
    }

    /** `method(self.args[tool])` for a handler the stage has: exactly that handler's effect. */
    method Dispatch(tool: string, value: OptValue) returns (o: Outcome)
      requires tool in Handlers(kind) && HandlerArg(tool, value)
      modifies this`instrs, this`compiler, this`sourceDirectory, this`buildDirectory, this`prefix,
               this`buildEnvironment, this`url, this`gromacsCmakeOpts, this`wrapper,
               this`preconfigure, this`check, this`calls
      ensures calls == old(calls) + [tool]
      ensures (Attributes(), o) == HandlerEffect(Setup(), tool, value, old(Attributes()))
      ensures old(instrs) <= instrs
    {
      calls := calls + [tool];
      if tool in CommonHandlers {
        o := DispatchCommon(tool, value);
      } else if kind == Development {
        o := DispatchDevelopment(tool, value);
      } else {
        assert kind == Application;
        o := DispatchApplication(tool, value);
      }
    }

    /** The handlers every stage has. */
    method DispatchCommon(tool: string, value: OptValue) returns (o: Outcome)
      requires tool in CommonHandlers && HandlerArg(tool, value)
      modifies this`instrs, this`compiler
      ensures (Attributes(), o) == CommonEffect(Setup(), tool, value, old(Attributes()))
    {
      if tool == "format" {
        o := Format(value);
      } else if tool == "ubuntu" {
        Ubuntu(value.s);
        o := Pass;
      } else if tool == "centos" {
        Centos(value.s);
        o := Pass;
      } else if tool == "cuda" {
        o := Cuda(value);
      } else if tool == "cmake" {
        o := Cmake(value.s);
      } else {
        assert tool == "gcc";
        Gcc(value.s);
        o := Pass;
      }
    }

    /** The handlers only the development stage has. */
    method DispatchDevelopment(tool: string, value: OptValue) returns (o: Outcome)
      requires tool in {"fftw", "openmpi", "impi"} && HandlerArg(tool, value)
      modifies this`instrs
      ensures (Attributes(), o) == DevelopmentEffect(Setup(), tool, value, old(Attributes()))
    {
      if tool == "fftw" {
        o := Fftw(value.s);
      } else if tool == "openmpi" {
        o := Openmpi(value.s);
      } else {
        o := Impi(value);
      }
    }

    /** The handlers only the application stage has. */
    method DispatchApplication(tool: string, value: OptValue) returns (o: Outcome)
      requires tool in {"gromacs", "regtest", "engines"} && HandlerArg(tool, value)
      modifies this`instrs, this`sourceDirectory, this`buildDirectory, this`prefix,
               this`buildEnvironment, this`url, this`gromacsCmakeOpts, this`wrapper,
               this`preconfigure, this`check
      ensures (Attributes(), o) == ApplicationEffect(Setup(), tool, value, old(Attributes()))
    {
      if tool == "gromacs" {
        o := DispatchGromacs(value.s);
      } else if tool == "regtest" {
        o := Regtest(value);
      } else {
        o := Engines(value.items);
      }
    }

    /** The `gromacs` handler, as its effect. */
    method DispatchGromacs(version: string) returns (o: Outcome)
      modifies this`instrs, this`sourceDirectory, this`buildDirectory, this`prefix, this`buildEnvironment,
               this`url, this`gromacsCmakeOpts, this`wrapper
      ensures (Attributes(), o) == GromacsEffect(Setup(), version, old(Attributes()))
    {
      o := Gromacs(version);
    }

    /**
     * `format`: the deployment stage first appends its fixed sequence
     * (`_configure`); setting the container format itself is the recipe
     * library's and changes no instruction.
     */
    method Format(spec: OptValue) returns (o: Outcome)
      modifies this`instrs
      ensures kind != Deployment ==> o == Pass && instrs == old(instrs)
      ensures kind == Deployment ==> var w := PreviousWrapper(previous);
        && (w.Ok? ==> o == Pass && instrs == old(instrs) + DeployInstrs(cfg.installationDirectory, w.value))
        && (w.Err? ==> o == Fail(w.error) && instrs == old(instrs) + DeployHead(cfg.installationDirectory))
    {
      if kind == Deployment {
        o := Configure();
        if o.Fail? {
          return;
        }
      }
      o := Pass;
    }

    /**
     * `ubuntu`: with CUDA on nothing is appended (the CUDA handler would
     * choose the base image); otherwise the `ubuntu:<version>` base image
     * named after the stage, then the previous stage's runtime if there is
     * a previous stage.
     */
    method Ubuntu(version: string)
      modifies this`instrs
      ensures cudaEnabled ==> instrs == old(instrs)
      ensures !cudaEnabled ==>
                instrs == old(instrs) + [BaseImage("ubuntu:" + version, StageName(kind))] + RuntimeOf(previous)
    {
      if cudaEnabled {
        return;
      }
      instrs := instrs + [BaseImage("ubuntu:" + version, StageName(kind))];
      if previous.Some? {
        instrs := instrs + [Runtime(previous.value.runtime)];
      }
    }

    /** `centos`: as `ubuntu`, with the `centos:centos<version>` base image. */
    method Centos(version: string)
      modifies this`instrs
      ensures cudaEnabled ==> instrs == old(instrs)
      ensures !cudaEnabled ==>
                instrs == old(instrs) + [BaseImage("centos:centos" + version, StageName(kind))] + RuntimeOf(previous)
    {
      if cudaEnabled {
        return;
      }
      instrs := instrs + [BaseImage("centos:centos" + version, StageName(kind))];
      if previous.Some? {
        instrs := instrs + [Runtime(previous.value.runtime)];
      }
    }

    /** `cuda`: not implemented, it always raises. */
    method Cuda(version: OptValue) returns (o: Outcome)
      ensures o == Fail(NotImplemented("Cuda"))
    {
      o := Fail(NotImplemented("Cuda"));
    }

    /** `cmake`: the CMake building block, once the version gate lets the version through. */
    method Cmake(version: string) returns (o: Outcome)
      modifies this`instrs
      ensures var vc := VersionChecked("CMake", cfg.cmakeMinRequiredVersion, version, cfg.strictVersion);
        && (vc.Ok? ==> o == Pass && instrs == old(instrs) + [Instr.Cmake(true, version)])
        && (vc.Err? ==> o == Fail(vc.error) && instrs == old(instrs))
    {
      var vc := VersionChecked("CMake", cfg.cmakeMinRequiredVersion, version, cfg.strictVersion);
      if vc.Err? {
        return Fail(vc.error);
      }
      instrs := instrs + [Instr.Cmake(true, version)];
      o := Pass;
    }

    /** `gcc`: the GNU compiler building block becomes the stage's compiler and is appended. */
    method Gcc(version: string)
      modifies this`compiler, this`instrs
      ensures compiler == Some(Gnu(true, false, version))
      ensures instrs == old(instrs) + [Gnu(true, false, version)]
      ensures HasToolchain(compiler.value) && ToolchainOf(compiler.value) == GnuToolchain(version)
    {
      compiler := Some(Gnu(true, false, version));
      instrs := instrs + [compiler.value];
    }

    /**
     * `fftw`: reads double precision first, then the compiler; raises
     * without appending when either is unset or the compiler has no
     * toolchain, and otherwise appends FFTW built with the compiler's
     * toolchain, in single precision unless double precision is on.
     */
    method Fftw(version: string) returns (o: Outcome)
      modifies this`instrs
      ensures doublePrecision.None? ==> o == Fail(MissingAttribute("double_precision_enabled")) && instrs == old(instrs)
      ensures doublePrecision.Some? && compiler.None? ==> o == Fail(MissingAttribute("compiler")) && instrs == old(instrs)
      ensures doublePrecision.Some? && compiler.Some? && !HasToolchain(compiler.value) ==>
                o == Fail(NotABuildingBlock) && instrs == old(instrs)
      ensures doublePrecision.Some? && compiler.Some? && HasToolchain(compiler.value) ==>
                && o == Pass
                && instrs == old(instrs) + [Instr.Fftw(ToolchainOf(compiler.value), FftwOptions(Truthy(doublePrecision.value)), version)]
    {
      var double := DoubleEnabled(doublePrecision);
      if double.Err? {
        return Fail(double.error);
      }
      var configureOpts := FftwBaseOptions;
      if !double.value {
        configureOpts := configureOpts + ["--enable-float"];
      }
      assert configureOpts == FftwOptions(double.value);
      if compiler.None? {
        return Fail(MissingAttribute("compiler"));
      }
      if !HasToolchain(compiler.value) {
        return Fail(NotABuildingBlock);
      }
      instrs := instrs + [Instr.Fftw(ToolchainOf(compiler.value), configureOpts, version)];
      o := Pass;
    }

    /**
     * `openmpi`: the version gate first, then the compiler's toolchain;
     * appends OpenMPI (with CUDA support iff CUDA is on) only when both
     * pass.
     */
    method Openmpi(version: string) returns (o: Outcome)
      modifies this`instrs
      ensures var vc := VersionChecked("openmpi", cfg.openmpiMinRequiredVersion, version, cfg.strictVersion);
        && (vc.Err? ==> o == Fail(vc.error) && instrs == old(instrs))
        && (vc.Ok? && compiler.None? ==> o == Fail(MissingAttribute("compiler")) && instrs == old(instrs))
        && (vc.Ok? && compiler.Some? && !HasToolchain(compiler.value) ==> o == Fail(NotABuildingBlock) && instrs == old(instrs))
        && (vc.Ok? && compiler.Some? && HasToolchain(compiler.value) ==>
              o == Pass && instrs == old(instrs) + [OpenMpi(cudaEnabled, false, ToolchainOf(compiler.value), version)])
    {
      var vc := VersionChecked("openmpi", cfg.openmpiMinRequiredVersion, version, cfg.strictVersion);
      if vc.Err? {
        return Fail(vc.error);
      }
      if compiler.None? {
        return Fail(MissingAttribute("compiler"));
      }
      if !HasToolchain(compiler.value) {
        return Fail(NotABuildingBlock);
      }
      instrs := instrs + [OpenMpi(cudaEnabled, false, ToolchainOf(compiler.value), version)];
      o := Pass;
    }

    /** `impi`: not implemented, it always raises. */
    method Impi(version: OptValue) returns (o: Outcome)
      ensures o == Fail(NotImplemented("impi"))
    {
      o := Fail(NotImplemented("impi"));
    }

    /**
     * `gromacs`: appends the wget package, sets the source and build
     * directories, the prefix, an empty build environment and the URL,
     * then the stage-wide CMake options and the wrapper name. Reading
     * double precision raises when it was never set, after the FFTW prefix
     * path went into the build environment; the wrapper is not set when its
     * suffix cannot be formatted.
     */
    method Gromacs(version: string) returns (o: Outcome)
      modifies this`instrs, this`sourceDirectory, this`buildDirectory, this`prefix, this`buildEnvironment,
               this`url, this`gromacsCmakeOpts, this`wrapper
      ensures instrs == old(instrs) + [Packages(OsPackages)]
      ensures sourceDirectory == Some(SourceDirectory(version)) && buildDirectory == Some(BuildDirectoryFormat)
      ensures prefix == Some(cfg.installationDirectory) && url == Some(SourceUrl(version))
      ensures buildEnvironment == Some(if fftwInstalled then map["CMAKE_PREFIX_PATH" := FftwPrefixPath] else map[])
      ensures doublePrecision.None? ==>
                && o == Fail(MissingAttribute("double_precision_enabled"))
                && gromacsCmakeOpts == old(gromacsCmakeOpts) && wrapper == old(wrapper)
      ensures doublePrecision.Some? ==>
                && gromacsCmakeOpts == Some(StageOpts(cmakeOpts, mpiEnabled, fftwInstalled, cudaEnabled,
                                                      Truthy(regtestEnabled), Truthy(doublePrecision.value)))
                && var ws := WrapperSuffix(cfg, mpiEnabled, doublePrecision);
                && (ws.Ok? ==> o == Pass && wrapper == Some("gmx" + ws.value))
                && (ws.Err? ==> o == Fail(ws.error) && wrapper == old(wrapper))
    {
      SetSources(version);
      o := SetGromacsOpts();
      if o.Fail? {
        return;
      }
      o := SetWrapper();
    }

    /** `self.gromacs_cmake_opts = self._get_gromacs_cmake_opts()`, after the build environment was set to {}. */
    method SetGromacsOpts() returns (o: Outcome)
      requires buildEnvironment == Some(map[])
      modifies this`buildEnvironment, this`gromacsCmakeOpts
      ensures buildEnvironment == Some(if fftwInstalled then map["CMAKE_PREFIX_PATH" := FftwPrefixPath] else map[])
      ensures doublePrecision.None? ==>
                o == Fail(MissingAttribute("double_precision_enabled")) && gromacsCmakeOpts == old(gromacsCmakeOpts)
      ensures doublePrecision.Some? ==>
                && o == Pass
                && gromacsCmakeOpts == Some(StageOpts(cmakeOpts, mpiEnabled, fftwInstalled, cudaEnabled,
                                                      Truthy(regtestEnabled), Truthy(doublePrecision.value)))
    {
      var opts := GetGromacsCmakeOpts();
      if opts.Err? {
        return Fail(opts.error);
      }
      gromacsCmakeOpts := Some(opts.value);
      o := Pass;
    }

    /** The first half of `gromacs`: the wget package, where the sources come from and go, and an empty build environment. */
    method SetSources(version: string)
      modifies this`instrs, this`sourceDirectory, this`buildDirectory, this`prefix, this`buildEnvironment, this`url
      ensures instrs == old(instrs) + [Packages(OsPackages)]
      ensures sourceDirectory == Some(SourceDirectory(version)) && buildDirectory == Some(BuildDirectoryFormat)
      ensures prefix == Some(cfg.installationDirectory) && url == Some(SourceUrl(version))
      ensures buildEnvironment == Some(map[])
    {
      instrs := instrs + [Packages(OsPackages)];
      sourceDirectory := Some(SourceDirectory(version));
      buildDirectory := Some(BuildDirectoryFormat);
      prefix := Some(cfg.installationDirectory);
      buildEnvironment := Some(map[]);
      url := Some(SourceUrl(version));
    }

    /** `self.wrapper = 'gmx' + self._get_wrapper_suffix()`: not set when the suffix raises. */
    method SetWrapper() returns (o: Outcome)
      modifies this`wrapper
      ensures var ws := WrapperSuffix(cfg, mpiEnabled, doublePrecision);
        && (ws.Ok? ==> o == Pass && wrapper == Some("gmx" + ws.value))
        && (ws.Err? ==> o == Fail(ws.error) && wrapper == old(wrapper))
    {
      var suffix := WrapperSuffix(cfg, mpiEnabled, doublePrecision);
      if suffix.Err? {
        return Fail(suffix.error);
      }
      wrapper := Some("gmx" + suffix.value);
      o := Pass;
    }

    /**
     * `_get_gromacs_cmake_opts`: the template with the compilers, MPI, the
     * FFT library and the three switches replaced, in the source's order.
     * When FFTW is installed the prefix path goes into the build
     * environment; the switch values are all read before the first switch
     * is replaced, so an unset double precision raises after that write.
     */
    method GetGromacsCmakeOpts() returns (r: Result<string>)
      modifies this`buildEnvironment
      ensures fftwInstalled && old(buildEnvironment).None? ==>
                r == Err(MissingAttribute("build_environment")) && buildEnvironment == old(buildEnvironment)
      ensures !(fftwInstalled && old(buildEnvironment).None?) ==>
                && buildEnvironment == (if fftwInstalled
                                        then Some(old(buildEnvironment).value["CMAKE_PREFIX_PATH" := FftwPrefixPath])
                                        else old(buildEnvironment))
                && (doublePrecision.None? ==> r == Err(MissingAttribute("double_precision_enabled")))
                && (doublePrecision.Some? ==>
                      r == Ok(StageOpts(cmakeOpts, mpiEnabled, fftwInstalled, cudaEnabled,
                                        Truthy(regtestEnabled), Truthy(doublePrecision.value))))
    {
      var opts := ReplaceCompilers(cmakeOpts, mpiEnabled);
      ghost var head := CompilerBindings(mpiEnabled) + FftBindings(fftwInstalled);
      if fftwInstalled {
        opts := Replace(opts, Placeholder("fft"), "GMX_FFT_LIBRARY=fftw3");
        if buildEnvironment.None? {
          return Err(MissingAttribute("build_environment"));
        }
        buildEnvironment := Some(buildEnvironment.value["CMAKE_PREFIX_PATH" := FftwPrefixPath]);
      } else {
        opts := Replace(opts, Placeholder("fft"), "GMX_BUILD_OWN_FFTW=ON");
      }
      assert opts == ReplaceAll(cmakeOpts, head) by {
        ReplaceAllAppend(cmakeOpts, CompilerBindings(mpiEnabled), FftBindings(fftwInstalled));
        ReplaceAllStep(ReplaceAll(cmakeOpts, CompilerBindings(mpiEnabled)), FftBindings(fftwInstalled), 0);
        assert FftBindings(fftwInstalled)[..1] == FftBindings(fftwInstalled) && FftBindings(fftwInstalled)[..0] == [];
      }
      if doublePrecision.None? {
        return Err(MissingAttribute("double_precision_enabled"));
      }
      var switched := ReplaceSwitches(opts, [cudaEnabled, Truthy(regtestEnabled), Truthy(doublePrecision.value)]);
      ReplaceAllAppend(cmakeOpts, head, SwitchBindings(cudaEnabled, Truthy(regtestEnabled), Truthy(doublePrecision.value)));
      r := Ok(switched);
    }

    /** The compiler and MPI replacements of `_get_gromacs_cmake_opts`: the MPI wrappers or the GNU compilers. */
    static method ReplaceCompilers(opts: string, mpi: bool) returns (r: string)
      ensures r == ReplaceAll(opts, CompilerBindings(mpi))
    {
      ghost var cb := CompilerBindings(mpi);
      if mpi {
        r := Replace(opts, Placeholder("c_compiler"), "mpicc");
        r := Replace(r, Placeholder("cxx_compiler"), "mpicxx");
        r := Replace(r, Placeholder("mpi"), "ON");
      } else {
        r := Replace(opts, Placeholder("c_compiler"), "gcc");
        r := Replace(r, Placeholder("cxx_compiler"), "g++");
        r := Replace(r, Placeholder("mpi"), "OFF");
      }
      assert cb[..0] == [] && cb[..3] == cb;
      ReplaceAllStep(opts, cb, 0);
      ReplaceAllStep(opts, cb, 1);
      ReplaceAllStep(opts, cb, 2);
    }

    /** The `for (option, enabled) in zip(...)` loop of `_get_gromacs_cmake_opts`: ON or OFF for cuda, regtest and double. */
    static method ReplaceSwitches(opts: string, enabled: seq<bool>) returns (r: string)
      requires |enabled| == 3
      ensures r == ReplaceAll(opts, SwitchBindings(enabled[0], enabled[1], enabled[2]))
    {
      var options := ["cuda", "regtest", "double"];
      ghost var sb := SwitchBindings(enabled[0], enabled[1], enabled[2]);
      r := opts;
      assert sb[..0] == [];
      for i := 0 to |options|
        invariant r == ReplaceAll(opts, sb[..i])
      {
        if enabled[i] {
          r := Replace(r, Placeholder(options[i]), "ON");
        } else {
          r := Replace(r, Placeholder(options[i]), "OFF");
        }
        ReplaceAllStep(opts, sb, i);
      }
      assert sb[..3] == sb;
    }

    /**
     * `regtest` (its argument is not read): with MPI on, the MPI launcher
     * flags are appended to the stage-wide options (an AttributeError when
     * `gromacs` has not set them); then preconfigure becomes the package
     * commands and check becomes True.
     */
    method Regtest(enabled: OptValue) returns (o: Outcome)
      modifies this`gromacsCmakeOpts, this`preconfigure, this`check
      ensures mpiEnabled && old(gromacsCmakeOpts).None? ==>
                && o == Fail(MissingAttribute("gromacs_cmake_opts"))
                && gromacsCmakeOpts == old(gromacsCmakeOpts)
                && preconfigure == old(preconfigure) && check == old(check)
      ensures !(mpiEnabled && old(gromacsCmakeOpts).None?) ==>
                && o == Pass
                && gromacsCmakeOpts == (if mpiEnabled then Some(old(gromacsCmakeOpts).value + RegtestMpiOptions)
                                        else old(gromacsCmakeOpts))
                && preconfigure == Some(RegtestPreconfigure) && check == Some(true)
      ensures (Attributes(), o) == RegtestEffect(Setup(), old(Attributes()))
    {
      if mpiEnabled {
        if gromacsCmakeOpts.None? {
          return Fail(MissingAttribute("gromacs_cmake_opts"));
        }
        gromacsCmakeOpts := Some(gromacsCmakeOpts.value + RegtestMpiOptions);
      }
      preconfigure := Some(RegtestPreconfigure);
      check := Some(true);
      o := Pass;
    }

    /**
     * One pass of the `engines` loop, as the source writes it: parse, take
     * the rdtscp value, compute the suffix, expand the stage-wide options
     * and build the generic CMake instruction. The attributes it reads are
     * passed as `ctx`, since the loop changes none of them.
     */
    static method BuildEngine(cfg: Config, ctx: EngineContext, engine: string) returns (r: Result<Instr>)
      ensures r == EngineBuild(cfg, ctx, engine)
    {
      var parsed := ParseEngine(cfg.simdMapper, engine);
      if parsed.Err? {
        return Err(parsed.error);
      }
      if parsed.value.None? {
        return Err(EmptyEngine);
      }
      var d := parsed.value.value;
      var rdtscp := Item(d, "rdtscp");
      if rdtscp.Err? {
        return Err(rdtscp.error);
      }
      var suffix := BinLibsSuffix(cfg, ctx.mpiEnabled, ctx.doublePrecision, rdtscp.value);
      if suffix.Err? {
        return Err(suffix.error);
      }
      if ctx.gromacsCmakeOpts.None? {
        return Err(MissingAttribute("gromacs_cmake_opts"));
      }
      var opts := ExpandOptions(ctx.gromacsCmakeOpts.value, suffix.value, d);
      r := CmakeBuild(ctx, d, opts);
    }

    /**
     * `engines`: one generic CMake build per engine, in list order, each
     * expanded from the same stage-wide options; the first engine that
     * raises ends the loop, with the builds before it appended.
     */
    method Engines(engines: seq<string>) returns (o: Outcome)
      modifies this`instrs
      ensures instrs == old(instrs) + EngineRun(cfg, Ctx(), engines).0
      ensures o == EngineRun(cfg, Ctx(), engines).1
      ensures (Attributes(), o) == EnginesEffect(Setup(), engines, old(Attributes()))
    {
      var ctx := Ctx();
      ghost var rs := EngineBuilds(cfg, ctx, engines);
      for i := 0 to |engines|
        invariant Collect(rs[..i]).1.Pass?
        invariant instrs == old(instrs) + Collect(rs[..i]).0
      {
        var b := BuildEngine(cfg, ctx, engines[i]);
        CollectStep(rs, i);
        if b.Err? {
          CollectStops(rs, i + 1);
          return Fail(b.error);
        }
        instrs := instrs + [b.value];
      }
      assert rs[..|engines|] == rs;
      o := Pass;
    }

    /**
     * `DeploymentStage._configure`: Python, vim and the scripts directory;
     * then, reading the previous stage's wrapper name (an AttributeError
     * when it has none), the wrapper and chooser scripts, their mode, the
     * configuration file and PATH.
     */
    method Configure() returns (o: Outcome)
      modifies this`instrs
      ensures var w := PreviousWrapper(previous);
        && (w.Ok? ==> o == Pass && instrs == old(instrs) + DeployInstrs(cfg.installationDirectory, w.value))
        && (w.Err? ==> o == Fail(w.error) && instrs == old(instrs) + DeployHead(cfg.installationDirectory))
    {
      var scripts := PathJoin(cfg.installationDirectory, "scripts");
      instrs := instrs + [Python(true, false, false)];
      instrs := instrs + [Packages(["vim"])];
      instrs := instrs + [Shell(["mkdir -p " + scripts])];
      var w := PreviousWrapper(previous);
      if w.Err? {
        return Fail(w.error);
      }
      instrs := instrs + [Copy("/scripts/wrapper.py", PathJoin(scripts, w.value))];
      instrs := instrs + [Copy("/scripts/gmx_chooser.py", PathJoin(scripts, "gmx_chooser.py"))];
      instrs := instrs + [Shell(["chmod +x " + PathJoin(scripts, "*")])];
      instrs := instrs + [Copy("config.py", PathJoin(scripts, "config.py"))];
      instrs := instrs + [Environment(map["PATH" := "$PATH:" + scripts])];
      o := Pass;
    }
  }
}
