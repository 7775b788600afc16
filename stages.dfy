/**
 * What the three stage kinds share and what sets them apart: their names,
 * the handler each offers for an option key, the keys their preparation
 * consumes, the fixed-order dispatch plan of `_build`, the FFTW configure
 * options, and the deployment stage's fixed instruction sequence.
 */
module Stages {
  import opened Outcomes
  import opened Inputs
  import opened Instructions

  /** DevelopmentStage, ApplicationStage and DeploymentStage. */
  datatype StageKind = Development | Application | Deployment

  /** The `stage_name` each constructor sets, used as the `_as` of the base image. */
  function StageName(kind: StageKind): string {
    match kind
    case Development => "dev_stage"
    case Application => "app_stage"
    case Deployment => "deploy_stage"
  }

  /** The handler methods StageMixin defines for every stage. */
  const CommonHandlers: set<string> := {"format", "ubuntu", "centos", "cuda", "cmake", "gcc"}

  /**
   * The option keys `getattr(self, tool)` finds a method for: the common
   * ones, plus fftw, openmpi and impi in the development stage and
   * gromacs, regtest and engines in the application stage.
   */
  function Handlers(kind: StageKind): set<string> {
    match kind
    case Development => CommonHandlers + {"fftw", "openmpi", "impi"}
    case Application => CommonHandlers + {"gromacs", "regtest", "engines"}
    case Deployment => CommonHandlers
  }

  /** The keys `_prepare` deletes from the options: double always, and openmpi, impi, fftw in the application stage. */
  function Removed(kind: StageKind): set<string> {
    if kind == Application then {"openmpi", "impi", "fftw", "double"} else {"double"}
  }

  /** The key sets of the stage kinds agree with the source's classes. */
  lemma HandlersOfKinds()
    ensures forall kind :: CommonHandlers <= Handlers(kind)
    ensures "fftw" in Handlers(Development) && "fftw" !in Handlers(Application) && "fftw" !in Handlers(Deployment)
    ensures "engines" in Handlers(Application) && "engines" !in Handlers(Development) && "engines" !in Handlers(Deployment)
    ensures forall kind :: "double" !in Handlers(kind) && "double" in Removed(kind)
    ensures forall k :: k in Removed(Application) ==> k !in Handlers(Application)
  {
  }

  // ---------------------------------------------------------------- dispatch

  /**
   * The handlers `_build` calls, in order: the keys of `order` that the
   * options hold and that name a handler of the stage, each as often as
   * `order` lists it.
   */
  function DispatchPlan(order: seq<string>, args: Args, kind: StageKind): seq<string>
    decreases |order|
  {
    if order == [] then []
    else
      var t := order[|order| - 1];
      DispatchPlan(order[..|order| - 1], args, kind) + (if t in args && t in Handlers(kind) then [t] else [])
  }

  /** The plan calls a handler exactly when its key is in the order, in the options and a handler of the stage. */
  lemma {:induction false} DispatchPlanMembers(order: seq<string>, args: Args, kind: StageKind, t: string)
    ensures t in DispatchPlan(order, args, kind) <==> t in order && t in args && t in Handlers(kind)
    decreases |order|
  {
    if order != [] {
      var init := order[..|order| - 1];
      DispatchPlanMembers(init, args, kind, t);
      assert order == init + [order[|order| - 1]];
    }
  }

  /** One more key of the order adds its call when the options hold it and the stage has its handler. */
  lemma DispatchPlanStep(order: seq<string>, args: Args, kind: StageKind, i: nat)
    requires i < |order|
    ensures DispatchPlan(order[..i + 1], args, kind)
         == DispatchPlan(order[..i], args, kind) + (if order[i] in args && order[i] in Handlers(kind) then [order[i]] else [])
  {
    assert order[..i + 1][..i] == order[..i];
  }

  /** Going further along the order only adds calls at the end. */
  lemma {:induction false} DispatchPlanPrefix(order: seq<string>, args: Args, kind: StageKind, i: nat)
    requires i <= |order|
    ensures DispatchPlan(order[..i], args, kind) <= DispatchPlan(order, args, kind)
    decreases |order|
  {
    if i < |order| {
      var init := order[..|order| - 1];
      assert init[..i] == order[..i];
      DispatchPlanPrefix(init, args, kind, i);
    } else {
      assert order[..i] == order;
    }
  }

  /** The elements of `s` are pairwise different. */
  predicate Distinct(s: seq<string>) {
    forall i, j :: 0 <= i < j < |s| ==> s[i] != s[j]
  }

  /** The position of the first `x` in `s` (|s| when there is none). */
  function Position(s: seq<string>, x: string): (p: nat)
    ensures p <= |s|
    ensures p < |s| <==> x in s
    ensures p < |s| ==> s[p] == x
  {
    if s == [] then 0 else if s[0] == x then 0 else 1 + Position(s[1..], x)
  }

  lemma {:induction false} PositionAppend(s: seq<string>, y: string, x: string)
    ensures x in s ==> Position(s + [y], x) == Position(s, x)
    ensures x !in s && x == y ==> Position(s + [y], x) == |s|
    decreases |s|
  {
    if s != [] {
      assert (s + [y])[1..] == s[1..] + [y];
      PositionAppend(s[1..], y, x);
    } else {
      assert (s + [y])[0] == y;
    }
  }

  /**
   * With a fixed order that lists every key once, each handler is called
   * at most once, and the calls come in the order's sequence.
   */
  lemma {:induction false} DispatchPlanInOrder(order: seq<string>, args: Args, kind: StageKind)
    requires Distinct(order)
    ensures var plan := DispatchPlan(order, args, kind);
      && Distinct(plan)
      && (forall i, j :: 0 <= i < j < |plan| ==> Position(order, plan[i]) < Position(order, plan[j]))
    decreases |order|
  {
    if order != [] {
      var init := order[..|order| - 1];
      var t := order[|order| - 1];
      assert order == init + [t];
      assert Distinct(init) by {
        forall i, j | 0 <= i < j < |init| ensures init[i] != init[j] {
          assert init[i] == order[i] && init[j] == order[j];
        }
      }
      DispatchPlanInOrder(init, args, kind);
      var p0 := DispatchPlan(init, args, kind);
      var plan := DispatchPlan(order, args, kind);
      assert t !in init by {
        forall i | 0 <= i < |init| ensures init[i] != t {
          assert init[i] == order[i];
        }
      }
      forall x | x in p0 ensures Position(order, x) == Position(init, x) < |init| {
        DispatchPlanMembers(init, args, kind, x);
        PositionAppend(init, t, x);
      }
      if t in args && t in Handlers(kind) {
        assert plan == p0 + [t];
        PositionAppend(init, t, t);
        DispatchPlanMembers(init, args, kind, t);
        forall i, j | 0 <= i < j < |plan|
          ensures plan[i] != plan[j] && Position(order, plan[i]) < Position(order, plan[j])
        {
          assert plan[i] == p0[i] && p0[i] in p0;
          if j < |p0| {
            assert plan[j] == p0[j] && p0[j] in p0;
          }
        }
      } else {
        assert plan == p0;
        forall i, j | 0 <= i < j < |plan|
          ensures Position(order, plan[i]) < Position(order, plan[j])
        {
          assert plan[i] in p0 && plan[j] in p0;
        }
      }
    }
  }

  // ---------------------------------------------------------------- base images and FFTW

  /**
   * What a stage hands its successor: the instructions its `_runtime`
   * copies out of it, and its `wrapper` attribute (None when it never set
   * one).
   */
  datatype Handoff = Handoff(runtime: seq<Instr>, wrapper: Option<string>)

  /** `if self.previous_stage: self.stage += self.previous_stage._runtime()` */
  function RuntimeOf(previous: Option<Handoff>): (r: seq<Instr>)
    ensures |r| <= 1
    ensures r != [] <==> previous.Some?
    ensures previous.Some? ==> r[0] == Runtime(previous.value.runtime)
  {
    if previous.Some? then [Runtime(previous.value.runtime)] else []
  }

  /** The six configure options FFTW always gets. */
  const FftwBaseOptions: seq<string> :=
    ["--enable-shared", "--disable-static", "--enable-sse2", "--enable-avx", "--enable-avx2", "--enable-avx512"]

  /** The FFTW configure options: the six fixed ones, then `--enable-float` unless double precision is on. */
  function FftwOptions(double: bool): seq<string> {
    FftwBaseOptions + (if double then [] else ["--enable-float"])
  }

  /** Single-precision FFTW exactly when double precision is off; the six fixed options come first either way. */
  lemma FftwOptionsFloat(double: bool)
    ensures var opts := FftwOptions(double);
      && opts[..6] == FftwBaseOptions
      && ("--enable-float" in opts <==> !double)
      && |opts| == (if double then 6 else 7)
  {
    var opts := FftwOptions(double);
    assert opts[..6] == FftwBaseOptions;
    assert forall i :: 0 <= i < 6 ==> opts[i] != "--enable-float";
    if !double {
      assert opts[6] == "--enable-float";
    }
  }

  // ---------------------------------------------------------------- the deployment stage

  /** `os.path.join(GMX_INSTALLATION_DIRECTORY, 'scripts')` */
  function ScriptsDirectory(installation: string): string {
    PathJoin(installation, "scripts")
  }

  /** The first three instructions of `_configure`, appended before it reads the previous stage's wrapper. */
  function DeployHead(installation: string): seq<Instr> {
    var scripts := ScriptsDirectory(installation);
    [ Python(true, false, false),
      Packages(["vim"]),
      Shell(["mkdir -p " + scripts]) ]
  }

  /** The rest of `_configure`: the wrapper and chooser scripts, their mode, the configuration and PATH. */
  function DeployTail(installation: string, wrapper: string): seq<Instr> {
    var scripts := ScriptsDirectory(installation);
    [ Copy("/scripts/wrapper.py", PathJoin(scripts, wrapper)),
      Copy("/scripts/gmx_chooser.py", PathJoin(scripts, "gmx_chooser.py")),
      Shell(["chmod +x " + PathJoin(scripts, "*")]),
      Copy("config.py", PathJoin(scripts, "config.py")),
      Environment(map["PATH" := "$PATH:" + scripts]) ]
  }

  /** The whole sequence `_configure` appends when the previous stage has a wrapper. */
  function DeployInstrs(installation: string, wrapper: string): seq<Instr> {
    DeployHead(installation) + DeployTail(installation, wrapper)
  }

  /** `os.path.join(scripts, name)` of a relative name is the name under the scripts directory. */
  lemma ScriptsPath(installation: string, name: string)
    requires installation != [] && installation[|installation| - 1] != '/'
    requires name != [] && name[0] != '/'
    ensures ScriptsDirectory(installation) == installation + "/scripts"
    ensures PathJoin(ScriptsDirectory(installation), name) == installation + "/scripts/" + name
  {
    var scripts := ScriptsDirectory(installation);
    assert scripts == installation + "/" + "scripts";
    assert installation + "/" + "scripts" == installation + "/scripts";
    assert scripts[|scripts| - 1] == 's';
    assert scripts + "/" + name == installation + "/scripts/" + name;
  }

  /**
   * The deployment stage installs Python and vim, creates the scripts
   * directory under the installation directory, copies the wrapper (under
   * the previous stage's wrapper name), the chooser and the configuration
   * into it, makes everything in it executable and puts it on PATH: eight
   * instructions in that order.
   */
  lemma DeployLayout(installation: string, wrapper: string)
    requires installation != [] && installation[|installation| - 1] != '/'
    requires wrapper != [] && wrapper[0] != '/'
    ensures var scripts, ins := installation + "/scripts", DeployInstrs(installation, wrapper);
      && |ins| == 8
      && ins[..3] == DeployHead(installation)
      && ins[0] == Python(true, false, false) && ins[1] == Packages(["vim"])
      && ins[2] == Shell(["mkdir -p " + scripts])
      && ins[3] == Copy("/scripts/wrapper.py", scripts + "/" + wrapper)
      && ins[4] == Copy("/scripts/gmx_chooser.py", scripts + "/gmx_chooser.py")
      && ins[5] == Shell(["chmod +x " + scripts + "/*"])
      && ins[6] == Copy("config.py", scripts + "/config.py")
      && ins[7] == Environment(map["PATH" := "$PATH:" + scripts])
  {
    var scripts := installation + "/scripts";
    ScriptsPath(installation, wrapper);
    ScriptsPath(installation, "gmx_chooser.py");
    ScriptsPath(installation, "*");
    ScriptsPath(installation, "config.py");
    var ins := DeployInstrs(installation, wrapper);
    assert ins[..3] == DeployHead(installation);
    assert "chmod +x " + (scripts + "/*") == "chmod +x " + scripts + "/*";
    assert scripts + "/" + wrapper == installation + "/scripts/" + wrapper;
    assert scripts + "/gmx_chooser.py" == installation + "/scripts/" + "gmx_chooser.py";
    assert scripts + "/config.py" == installation + "/scripts/" + "config.py";
    assert scripts + "/*" == installation + "/scripts/" + "*";
  }

  /**
   * Every file the deployment stage copies lands directly in the scripts
   * directory: its destination is the scripts directory, a `/`, and a
   * non-empty name with no `/` in it, provided the previous stage's
   * wrapper name has no `/`.
   */
  lemma DeployCopiesIntoScripts(installation: string, wrapper: string)
    requires wrapper != [] && '/' !in wrapper
    ensures var scripts, ins := ScriptsDirectory(installation), DeployInstrs(installation, wrapper);
      forall k :: 0 <= k < |ins| && ins[k].Copy? ==>
        && |ins[k].dest| > |scripts| + 1
        && ins[k].dest[..|scripts| + 1] == scripts + "/"
        && '/' !in ins[k].dest[|scripts| + 1..]
  {
    var scripts, ins := ScriptsDirectory(installation), DeployInstrs(installation, wrapper);
    assert scripts[|scripts| - 1] == 's';
    forall k | 0 <= k < |ins| && ins[k].Copy?
      ensures |ins[k].dest| > |scripts| + 1
      ensures ins[k].dest[..|scripts| + 1] == scripts + "/"
      ensures '/' !in ins[k].dest[|scripts| + 1..]
    {
      assert k == 3 || k == 4 || k == 6;
      var name := if k == 3 then wrapper else if k == 4 then "gmx_chooser.py" else "config.py";
      assert ins[k].dest == scripts + "/" + name;
      assert (scripts + "/" + name)[..|scripts| + 1] == scripts + "/";
      assert (scripts + "/" + name)[|scripts| + 1..] == name;
    }
  }

  /** The last instruction of the deployment stage appends the scripts directory to PATH. */
  lemma DeployPath(installation: string, wrapper: string)
    ensures var ins := DeployInstrs(installation, wrapper);
      && ins[|ins| - 1].Environment?
      && ins[|ins| - 1].variables.Keys == {"PATH"}
      && ins[|ins| - 1].variables["PATH"] == "$PATH:" + ScriptsDirectory(installation)
  {
    var ins := DeployInstrs(installation, wrapper);
    assert ins[7] == Environment(map["PATH" := "$PATH:" + ScriptsDirectory(installation)]);
  }
}
