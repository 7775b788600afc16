/**
 * What a stage is given: the option dictionary the command line produced
 * for it, and the constants of the `config` and `utilities.cli` modules,
 * which are not part of this model and so are parameters here.
 */
module Inputs {
  import opened Outcomes
  import opened Formats
  import opened Versions

  /** A value of the option dictionary. */
  datatype OptValue =
    | Str(s: string)          // a version, a distribution release, a container format
    | Flag(b: bool)           // a switch such as `double` or `regtest`
    | List(items: seq<string>) // the engine strings
    | Null                    // Python's None

  /** Python truthiness of an option value. */
  predicate Truthy(v: OptValue) {
    match v
    case Str(s) => s != []
    case Flag(b) => b
    case List(items) => items != []
    case Null => false
  }

  /** The option dictionary of one stage. */
  type Args = map<string, OptValue>

  /** args.get(key, default) */
  function Get(args: Args, key: string, default: OptValue): (v: OptValue)
    ensures key in args ==> v == args[key]
    ensures key !in args ==> v == default
  {
    if key in args then args[key] else default
  }

  /** The options whose handler takes a version (or release) string. */
  const VersionTools: set<string> :=
    {"ubuntu", "centos", "cmake", "gcc", "fftw", "openmpi", "gromacs"}

  /**
   * The shapes the command line gives the values: a string for every tool
   * that takes a version, a list of strings for `engines`. Values of
   * other shapes are not modelled.
   */
  predicate WellShaped(args: Args) {
    && (forall k :: k in args && k in VersionTools ==> args[k].Str?)
    && ("engines" in args ==> args["engines"].List?)
  }

  /**
   * The constants the stages read:
   *  - toolsOrder: `utilities.cli.tools_order`, the fixed dispatch order;
   *  - simdMapper: `config.SIMD_MAPPER`;
   *  - cmakeMinRequiredVersion, openmpiMinRequiredVersion: the minimum versions;
   *  - binarySuffixFormat, wrapperSuffixFormat: `config.BINARY_SUFFIX_FORMAT`
   *    and `config.WRAPPER_SUFFIX_FORMAT`, already split into literals and fields;
   *  - engineSuffixOptions: `config.GMX_ENGINE_SUFFIX_OPTIONS`;
   *  - installationDirectory: `config.GMX_INSTALLATION_DIRECTORY`;
   *  - strictVersion: distutils' StrictVersion parser (None for a string it rejects).
   */
  datatype Config = Config(
    toolsOrder: seq<string>,
    simdMapper: map<string, string>,
    cmakeMinRequiredVersion: string,
    openmpiMinRequiredVersion: string,
    binarySuffixFormat: FormatString,
    wrapperSuffixFormat: FormatString,
    engineSuffixOptions: map<string, string>,
    installationDirectory: string,
    strictVersion: string -> Option<Version>)
}
