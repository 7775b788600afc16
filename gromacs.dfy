/**
 * The GROMACS-specific values of the application stage: the CMake option
 * template with its `$name$` placeholders, the first round of replacements
 * (compiler, MPI, FFT library and the three switches), and the binary,
 * library and wrapper name suffixes built from the configured formats.
 */
module GromacsOptions {
  import opened Outcomes
  import opened Strings
  import opened Placeholders
  import opened Formats
  import opened Inputs

  /** Every option of the template sits on its own source line, indented by 16 blanks. */
  const Indent: string := "                "

  /** The blank that ends one line and the indentation of the next. */
  const Sep: string := " " + Indent

  /** A placeholder, then a blank, the next line's indentation and that line's option text. */
  function Line(hole: string, option: string): Segment {
    Segment(hole, Sep + option)
  }

  lemma LineOk(hole: string, option: string)
    requires hole != [] && '$' !in hole && '$' !in option
    ensures SegmentOk(Line(hole, option))
  {
    assert '$' !in Sep && Sep[0] == ' ';
  }

  const TemplateHead: string := Indent + "-DCMAKE_INSTALL_BINDIR=bin."

  const TemplateLines: seq<Segment> := [
    Line("simd", "-DCMAKE_INSTALL_LIBDIR=lib."),
    Line("simd", "-DCMAKE_C_COMPILER="),
    Line("c_compiler", "-DCMAKE_CXX_COMPILER="),
    Line("cxx_compiler", "-DGMX_OPENMP=ON" + Sep + "-DGMX_MPI="),
    Line("mpi", "-DGMX_GPU="),
    Line("cuda", "-DGMX_SIMD="),
    Line("simd", "-DGMX_USE_RDTSCP="),
    Line("rdtscp", "-DGMX_DOUBLE="),
    Line("double", "-D"),
    Line("fft", "-DGMX_EXTERNAL_BLAS=OFF" + Sep + "-DGMX_EXTERNAL_LAPACK=OFF" + Sep + "-DBUILD_SHARED_LIBS=OFF"
                + Sep + "-DGMX_PREFER_STATIC_LIBS=ON" + Sep + "-DREGRESSIONTEST_DOWNLOAD="),
    Line("regtest", "-DGMX_DEFAULT_SUFFIX=OFF" + Sep + "-DGMX_BINARY_SUFFIX="),
    Line("bin_suffix", "-DGMX_LIBS_SUFFIX="),
    Line("libs_suffix", "")
  ]

  /**
   * `ApplicationStage._cmake_opts`: nineteen `-D` options, one per source
   * line, each line indented by 16 blanks and ended by one blank, with the
   * `$name$` placeholders as holes.
   */
  const CmakeOptsTemplate: seq<Piece> := Assemble(TemplateHead, TemplateLines)

  /** The placeholders each engine fills in: they stay open in the stage-wide options. */
  const EngineHoles: set<string> := {"simd", "rdtscp", "bin_suffix", "libs_suffix"}

  function OnOff(b: bool): string {
    if b then "ON" else "OFF"
  }

  /** The compilers and the MPI switch: the MPI wrappers when MPI is on, the GNU compilers otherwise. */
  function CompilerBindings(mpi: bool): Bindings {
    [ ("c_compiler", if mpi then "mpicc" else "gcc"),
      ("cxx_compiler", if mpi then "mpicxx" else "g++"),
      ("mpi", OnOff(mpi)) ]
  }

  /** The FFT library: the FFTW of the development stage, or one GROMACS builds itself. */
  function FftBindings(fftw: bool): Bindings {
    [("fft", if fftw then "GMX_FFT_LIBRARY=fftw3" else "GMX_BUILD_OWN_FFTW=ON")]
  }

  /** The zip over cuda, regtest and double. */
  function SwitchBindings(cuda: bool, regtest: bool, double: bool): Bindings {
    [("cuda", OnOff(cuda)), ("regtest", OnOff(regtest)), ("double", OnOff(double))]
  }

  /** The replacements `_get_gromacs_cmake_opts` makes, in its order. */
  function GromacsBindings(mpi: bool, fftw: bool, cuda: bool, regtest: bool, double: bool): Bindings {
    CompilerBindings(mpi) + FftBindings(fftw) + SwitchBindings(cuda, regtest, double)
  }

  /** The value the source puts in the build environment when FFTW was installed by the development stage. */
  const FftwPrefixPath: string := "'/usr/local/fftw'"

  /** What `regtest` appends to the options when MPI is on. */
  const RegtestMpiOptions: string := " -DMPIEXEC_PREFLAGS='--allow-run-as-root;--oversubscribe'"

  /** The packages and the preconfigure commands of the application stage. */
  const OsPackages: seq<string> := ["wget"]
  const RegtestPreconfigure: seq<string> := ["apt-get update", "apt-get upgrade -y", "apt-get install -y perl"]

  /** `'build.{simd}'`, the build directory relative to the source directory. */
  const BuildDirectoryFormat: FormatString := [Literal("build."), Field("simd")]

  function SourceDirectory(version: string): string {
    "gromacs-" + version
  }

  function SourceUrl(version: string): string {
    "ftp://ftp.gromacs.org/pub/gromacs/gromacs-" + version + ".tar.gz"
  }

  lemma TemplateLinesOk()
    ensures forall k :: 0 <= k < |TemplateLines| ==> SegmentOk(TemplateLines[k])
  {
    CompilerLinesOk();
    SwitchLinesOk();
    FftLineOk();
    SuffixLinesOk();
  }

  lemma CompilerLinesOk()
    ensures forall k :: 0 <= k < 4 ==> SegmentOk(TemplateLines[k])
  {
    LineOk("simd", "-DCMAKE_INSTALL_LIBDIR=lib.");
    LineOk("simd", "-DCMAKE_C_COMPILER=");
    LineOk("c_compiler", "-DCMAKE_CXX_COMPILER=");
    LineOk("cxx_compiler", "-DGMX_OPENMP=ON" + Sep + "-DGMX_MPI=");
  }

  lemma SwitchLinesOk()
    ensures forall k :: 4 <= k < 9 ==> SegmentOk(TemplateLines[k])
  {
    LineOk("mpi", "-DGMX_GPU=");
    LineOk("cuda", "-DGMX_SIMD=");
    LineOk("simd", "-DGMX_USE_RDTSCP=");
    LineOk("rdtscp", "-DGMX_DOUBLE=");
    LineOk("double", "-D");
  }

  lemma FftLineOk()
    ensures SegmentOk(TemplateLines[9])
  {
    LineOk("fft", "-DGMX_EXTERNAL_BLAS=OFF" + Sep + "-DGMX_EXTERNAL_LAPACK=OFF" + Sep + "-DBUILD_SHARED_LIBS=OFF"
                  + Sep + "-DGMX_PREFER_STATIC_LIBS=ON" + Sep + "-DREGRESSIONTEST_DOWNLOAD=");
  }

  lemma SuffixLinesOk()
    ensures forall k :: 10 <= k < 13 ==> SegmentOk(TemplateLines[k])
  {
    LineOk("regtest", "-DGMX_DEFAULT_SUFFIX=OFF" + Sep + "-DGMX_BINARY_SUFFIX=");
    LineOk("bin_suffix", "-DGMX_LIBS_SUFFIX=");
    LineOk("libs_suffix", "");
  }

  lemma TemplateWellFormed()
    ensures WellFormed(CmakeOptsTemplate)
  {
    TemplateLinesOk();
    assert '$' !in Indent;
    AssembleWellFormed(TemplateHead, TemplateLines);
  }

  /** The template holds exactly the eleven placeholders of the source. */
  lemma TemplateHoles()
    ensures HoleNames(CmakeOptsTemplate)
         == {"simd", "c_compiler", "cxx_compiler", "mpi", "cuda", "rdtscp", "double", "fft",
             "regtest", "bin_suffix", "libs_suffix"}
  {
    AssembleHoles(TemplateHead, TemplateLines);
    var t := TemplateLines;
    assert t[0].hole == "simd" && t[2].hole == "c_compiler" && t[3].hole == "cxx_compiler";
    assert t[4].hole == "mpi" && t[5].hole == "cuda" && t[7].hole == "rdtscp";
    assert t[8].hole == "double" && t[9].hole == "fft" && t[10].hole == "regtest";
    assert t[11].hole == "bin_suffix" && t[12].hole == "libs_suffix";
  }

  lemma GromacsBindingsOk(mpi: bool, fftw: bool, cuda: bool, regtest: bool, double: bool)
    ensures BindingsOk(GromacsBindings(mpi, fftw, cuda, regtest, double))
  {
    CompilerBindingsOk(mpi);
    FftBindingsOk(fftw);
    SwitchBindingsOk(cuda, regtest, double);
    BindingsOkAppend(CompilerBindings(mpi), FftBindings(fftw));
    BindingsOkAppend(CompilerBindings(mpi) + FftBindings(fftw), SwitchBindings(cuda, regtest, double));
  }

  lemma CompilerBindingsOk(mpi: bool)
    ensures BindingsOk(CompilerBindings(mpi))
  {
    assert PatternName("c_compiler") && PatternName("cxx_compiler") && PatternName("mpi");
  }

  lemma FftBindingsOk(fftw: bool)
    ensures BindingsOk(FftBindings(fftw))
  {
    assert PatternName("fft");
  }

  lemma SwitchBindingsOk(cuda: bool, regtest: bool, double: bool)
    ensures BindingsOk(SwitchBindings(cuda, regtest, double))
  {
    assert PatternName("cuda") && PatternName("regtest") && PatternName("double");
  }

  /** No stage-wide replacement touches a per-engine placeholder. */
  lemma GromacsBindingsLeaveEngineHoles(mpi: bool, fftw: bool, cuda: bool, regtest: bool, double: bool)
    ensures forall n :: n in EngineHoles ==> Lookup(GromacsBindings(mpi, fftw, cuda, regtest, double), n).None?
  {
    var gb := GromacsBindings(mpi, fftw, cuda, regtest, double);
    forall n | n in EngineHoles ensures Lookup(gb, n).None? {
      assert forall k :: 0 <= k < |gb| ==> gb[k].0 != n;
      LookupNone(gb, n);
    }
  }

  /** The value each stage-wide placeholder gets: the first (and only) binding for its name. */
  lemma GromacsLookups(mpi: bool, fftw: bool, cuda: bool, regtest: bool, double: bool)
    ensures var gb := GromacsBindings(mpi, fftw, cuda, regtest, double);
      && Lookup(gb, "c_compiler") == Some(if mpi then "mpicc" else "gcc")
      && Lookup(gb, "cxx_compiler") == Some(if mpi then "mpicxx" else "g++")
      && Lookup(gb, "mpi") == Some(OnOff(mpi))
      && Lookup(gb, "fft") == Some(if fftw then "GMX_FFT_LIBRARY=fftw3" else "GMX_BUILD_OWN_FFTW=ON")
      && Lookup(gb, "cuda") == Some(OnOff(cuda))
      && Lookup(gb, "regtest") == Some(OnOff(regtest))
      && Lookup(gb, "double") == Some(OnOff(double))
  {
    var gb := GromacsBindings(mpi, fftw, cuda, regtest, double);
    assert gb[0].0 == "c_compiler" && gb[1].0 == "cxx_compiler" && gb[2].0 == "mpi" && gb[3].0 == "fft";
    assert gb[4].0 == "cuda" && gb[5].0 == "regtest" && gb[6].0 == "double";
    assert Lookup(gb, "c_compiler") == Some(gb[0].1) by { LookupAt(gb, 0); }
    assert Lookup(gb, "cxx_compiler") == Some(gb[1].1) by { LookupAt(gb, 1); }
    assert Lookup(gb, "mpi") == Some(gb[2].1) by { LookupAt(gb, 2); }
    assert Lookup(gb, "fft") == Some(gb[3].1) by { LookupAt(gb, 3); }
    assert Lookup(gb, "cuda") == Some(gb[4].1) by { LookupAt(gb, 4); }
    assert Lookup(gb, "regtest") == Some(gb[5].1) by { LookupAt(gb, 5); }
    assert Lookup(gb, "double") == Some(gb[6].1) by { LookupAt(gb, 6); }
  }

  /** Every stage-wide placeholder has a replacement. */
  lemma GromacsBindingsCover(mpi: bool, fftw: bool, cuda: bool, regtest: bool, double: bool)
    ensures forall n :: n in HoleNames(CmakeOptsTemplate) && n !in EngineHoles ==>
                          Lookup(GromacsBindings(mpi, fftw, cuda, regtest, double), n).Some?
  {
    TemplateHoles();
    GromacsLookups(mpi, fftw, cuda, regtest, double);
  }

  /**
   * `_get_gromacs_cmake_opts` on the template string: the chain of replace
   * calls is the template with the holes filled, and exactly the four
   * per-engine placeholders stay open.
   */
  lemma GromacsOptsRendered(mpi: bool, fftw: bool, cuda: bool, regtest: bool, double: bool)
    ensures var gb := GromacsBindings(mpi, fftw, cuda, regtest, double);
      && ReplaceAll(Render(CmakeOptsTemplate), gb) == Render(SubstAll(CmakeOptsTemplate, gb))
      && WellFormed(SubstAll(CmakeOptsTemplate, gb))
      && HoleNames(SubstAll(CmakeOptsTemplate, gb)) == EngineHoles
  {
    var t := CmakeOptsTemplate;
    var gb := GromacsBindings(mpi, fftw, cuda, regtest, double);
    TemplateWellFormed();
    GromacsBindingsOk(mpi, fftw, cuda, regtest, double);
    ReplaceAllRendered(t, gb);
    SubstAllWellFormed(t, gb);
    assert HoleNames(SubstAll(t, gb)) == EngineHoles by {
      OpenHoles(t, gb);
      GromacsBindingsLeaveEngineHoles(mpi, fftw, cuda, regtest, double);
      GromacsBindingsCover(mpi, fftw, cuda, regtest, double);
      TemplateHoles();
      assert EngineHoles <= HoleNames(t);
    }
  }

  /**
   * The values `_get_gromacs_cmake_opts` puts in: mpicc, mpicxx and ON when
   * MPI is on, gcc, g++ and OFF otherwise; the FFTW library or a bundled
   * build; ON or OFF per switch. The text between the holes is untouched.
   */
  lemma GromacsOptsValues(mpi: bool, fftw: bool, cuda: bool, regtest: bool, double: bool)
    ensures var t, r := CmakeOptsTemplate, SubstAll(CmakeOptsTemplate, GromacsBindings(mpi, fftw, cuda, regtest, double));
      && |r| == |t|
      && (forall i :: 0 <= i < |t| && t[i] == Hole("c_compiler") ==> r[i] == Text(if mpi then "mpicc" else "gcc"))
      && (forall i :: 0 <= i < |t| && t[i] == Hole("cxx_compiler") ==> r[i] == Text(if mpi then "mpicxx" else "g++"))
      && (forall i :: 0 <= i < |t| && t[i] == Hole("mpi") ==> r[i] == Text(OnOff(mpi)))
      && (forall i :: 0 <= i < |t| && t[i] == Hole("fft") ==>
            r[i] == Text(if fftw then "GMX_FFT_LIBRARY=fftw3" else "GMX_BUILD_OWN_FFTW=ON"))
      && (forall i :: 0 <= i < |t| && t[i] == Hole("cuda") ==> r[i] == Text(OnOff(cuda)))
      && (forall i :: 0 <= i < |t| && t[i] == Hole("regtest") ==> r[i] == Text(OnOff(regtest)))
      && (forall i :: 0 <= i < |t| && t[i] == Hole("double") ==> r[i] == Text(OnOff(double)))
      && (forall i :: 0 <= i < |t| && t[i].Text? ==> r[i] == t[i])
  {
    SubstAllAt(CmakeOptsTemplate, GromacsBindings(mpi, fftw, cuda, regtest, double));
    GromacsLookups(mpi, fftw, cuda, regtest, double);
  }

  // ---------------------------------------------------------------- name suffixes

  /** `GMX_ENGINE_SUFFIX_OPTIONS[key] if on else ''` (a KeyError when the option is missing). */
  function SuffixPart(cfg: Config, key: string, on: bool): (r: Result<string>)
    ensures r.Ok? <==> !on || key in cfg.engineSuffixOptions
    ensures r.Ok? ==> r.value == if on then cfg.engineSuffixOptions[key] else ""
    ensures r.Err? ==> r.error == MissingKey(key)
  {
    if !on then Ok("")
    else if key in cfg.engineSuffixOptions then Ok(cfg.engineSuffixOptions[key])
    else Err(MissingKey(key))
  }

  /** Reading `self.double_precision_enabled`, which only `_prepare` sets, and only when `double` was given. */
  function DoubleEnabled(double: Option<OptValue>): (r: Result<bool>)
    ensures r.Ok? <==> double.Some?
    ensures r.Ok? ==> r.value == Truthy(double.value)
    ensures r.Err? ==> r.error == MissingAttribute("double_precision_enabled")
  {
    match double
    case None => Err(MissingAttribute("double_precision_enabled"))
    case Some(v) => Ok(Truthy(v))
  }

  /** `_get_wrapper_suffix`: WRAPPER_SUFFIX_FORMAT with the MPI and double-precision parts. */
  function WrapperSuffix(cfg: Config, mpi: bool, double: Option<OptValue>): Result<string> {
    var m :- SuffixPart(cfg, "mpi", mpi);
    var dv :- DoubleEnabled(double);
    var d :- SuffixPart(cfg, "double", dv);
    Format(cfg.wrapperSuffixFormat, map["mpi" := m, "double" := d])
  }

  /**
   * `_get_bin_libs_suffix`: BINARY_SUFFIX_FORMAT with the MPI, the
   * double-precision and the RDTSCP parts; the RDTSCP part is there when
   * the engine's rdtscp value is "on" in any letter case.
   */
  function BinLibsSuffix(cfg: Config, mpi: bool, double: Option<OptValue>, rdtscp: string): Result<string> {
    var m :- SuffixPart(cfg, "mpi", mpi);
    var dv :- DoubleEnabled(double);
    var d :- SuffixPart(cfg, "double", dv);
    var r :- SuffixPart(cfg, "rdtscp", Lower(rdtscp) == "on");
    Format(cfg.binarySuffixFormat, map["mpi" := m, "double" := d, "rdtscp" := r])
  }

  /** A configuration whose suffix options and formats fit each other. */
  predicate SuffixConfig(cfg: Config) {
    && {"mpi", "double", "rdtscp"} <= cfg.engineSuffixOptions.Keys
    && FieldNames(cfg.binarySuffixFormat) <= {"mpi", "double", "rdtscp"}
    && FieldNames(cfg.wrapperSuffixFormat) <= {"mpi", "double"}
  }

  /**
   * With a fitting configuration the suffixes can be computed exactly when
   * double precision was decided; otherwise reading it raises.
   */
  lemma SuffixesDefined(cfg: Config, mpi: bool, double: Option<OptValue>, rdtscp: string)
    requires SuffixConfig(cfg)
    ensures WrapperSuffix(cfg, mpi, double).Ok? <==> double.Some?
    ensures BinLibsSuffix(cfg, mpi, double, rdtscp).Ok? <==> double.Some?
    ensures double.None? ==> WrapperSuffix(cfg, mpi, double) == Err(MissingAttribute("double_precision_enabled"))
    ensures double.None? ==> BinLibsSuffix(cfg, mpi, double, rdtscp) == Err(MissingAttribute("double_precision_enabled"))
  {
    if double.Some? {
      var m := SuffixPart(cfg, "mpi", mpi).value;
      var d := SuffixPart(cfg, "double", Truthy(double.value)).value;
      var r := SuffixPart(cfg, "rdtscp", Lower(rdtscp) == "on").value;
      CoveredIsFieldNames(cfg.wrapperSuffixFormat, map["mpi" := m, "double" := d].Keys);
      CoveredIsFieldNames(cfg.binarySuffixFormat, map["mpi" := m, "double" := d, "rdtscp" := r].Keys);
    }
  }

  /**
   * The binary and library suffix depends on the rdtscp value only through
   * `rdtscp.lower() == 'on'`, and the "on" suffix is the "off" suffix
   * lengthened by the RDTSCP option at every `{rdtscp}` field of the format.
   */
  lemma RdtscpPart(cfg: Config, mpi: bool, double: OptValue, rdtscp: string)
    requires SuffixConfig(cfg)
    ensures BinLibsSuffix(cfg, mpi, Some(double), rdtscp).Ok? && BinLibsSuffix(cfg, mpi, Some(double), "").Ok?
    ensures Lower(rdtscp) != "on" ==>
              BinLibsSuffix(cfg, mpi, Some(double), rdtscp) == BinLibsSuffix(cfg, mpi, Some(double), "")
    ensures Lower(rdtscp) == "on" ==>
              |BinLibsSuffix(cfg, mpi, Some(double), rdtscp).value|
              == |BinLibsSuffix(cfg, mpi, Some(double), "").value|
                 + Occurrences(cfg.binarySuffixFormat, "rdtscp") * |cfg.engineSuffixOptions["rdtscp"]|
  {
    SuffixesDefined(cfg, mpi, Some(double), rdtscp);
    SuffixesDefined(cfg, mpi, Some(double), "");
    assert Lower("") == "";
    var m := SuffixPart(cfg, "mpi", mpi).value;
    var d := SuffixPart(cfg, "double", Truthy(double)).value;
    var values := map["mpi" := m, "double" := d];
    var x := cfg.engineSuffixOptions["rdtscp"];
    CoveredIsFieldNames(cfg.binarySuffixFormat, values.Keys + {"rdtscp"});
    FormatFieldLength(cfg.binarySuffixFormat, values, "rdtscp", x);
    assert values["rdtscp" := x] == map["mpi" := m, "double" := d, "rdtscp" := x];
    assert values["rdtscp" := ""] == map["mpi" := m, "double" := d, "rdtscp" := ""];
  }
}
