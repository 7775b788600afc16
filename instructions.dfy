/**
 * The recipe instructions a stage accumulates. Each constructor stands for
 * the hpccm primitive or building block of the same name, holding exactly
 * the arguments the recipe code passes to it; what hpccm makes of them is
 * not part of this model.
 */
module Instructions {

  /** The toolchain of the GNU compiler building block of the given version. */
  datatype Toolchain = GnuToolchain(version: string)

  datatype Instr =
    | BaseImage(image: string, stageName: string)          // primitives.baseimage(image, _as)
    | Runtime(source: seq<Instr>)                          // previous_stage._runtime()
    | Cmake(eula: bool, version: string)                   // building_blocks.cmake
    | Gnu(extraRepository: bool, fortran: bool, version: string) // building_blocks.gnu
    | Fftw(toolchain: Toolchain, configureOpts: seq<string>, version: string)
    | OpenMpi(cuda: bool, infiniband: bool, toolchain: Toolchain, version: string)
    | Packages(ospackages: seq<string>)
    | GenericCmake(cmakeOpts: seq<string>, directory: string, buildDirectory: string,
                   prefix: string, buildEnvironment: map<string, string>, url: string,
                   preconfigure: seq<string>, check: bool)
    | Python(python3: bool, python2: bool, devel: bool)
    | Shell(commands: seq<string>)
    | Copy(src: string, dest: string)
    | Environment(variables: map<string, string>)

  /** `hasattr(compiler, 'toolchain')`: only a compiler building block has one. */
  predicate HasToolchain(i: Instr) {
    i.Gnu?
  }

  function ToolchainOf(i: Instr): (t: Toolchain)
    requires HasToolchain(i)
    ensures t.version == i.version
  {
    GnuToolchain(i.version)
  }

  /** os.path.join(a, b) for two POSIX path components. */
  function PathJoin(a: string, b: string): (p: string)
    ensures b != [] && b[0] == '/' ==> p == b
    ensures (b == [] || b[0] != '/') && a != [] && a[|a| - 1] != '/' ==> p == a + "/" + b
  {
    if b != [] && b[0] == '/' then b
    else if a == [] || a[|a| - 1] == '/' then a + b
    else a + "/" + b
  }
}
