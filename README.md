# GROMACS container recipes: a Dafny model of the stage recipes

This project models how `container/recipes.py` builds the three stages of a GROMACS container recipe. Each stage is a list of hpccm building blocks and primitives.

- The **development stage** (`dev_stage`) gets the operating system, CUDA, CMake, the GNU compiler, FFTW and MPI.
- The **application stage** (`app_stage`) gets the GROMACS source and one `generic_cmake` build per SIMD engine.
- The **deployment stage** (`deploy_stage`) gets the GROMACS wrapper script, the engine chooser script and the configuration.

A stage is built from the user's arguments in three steps:

1. `_prepare` records and deletes the arguments that have no handler.
2. Every tool of the global tool order that is in the arguments and has a handler method is dispatched to that handler, in that order.
3. The handlers append instructions to the stage.

## How the model is organised

- `Recipes.Stage` is a class with the stage's attributes as fields.
  - Its `instrs` field is the instruction list, which each handler extends in place.
  - A ghost `calls` field records which handlers ran.
- Attributes that Python creates on first assignment are `Option` fields. Examples are `double_precision_enabled`, `compiler`, `gromacs_cmake_opts` and `wrapper`. Reading one that is not set yields the error that `AttributeError` stands for.
- Every exception the source can raise is a `Fail`/`Err` value of `Outcomes.Error`. The first failing handler stops the build.
- The mixin and its three subclasses are one class with a `kind` field. The `getattr(self, tool)` lookup is the handler table `Stages.Handlers(kind)`.
- The pure parts are functions with lemmas:
  - the `$name$` placeholder template (`Placeholders`, `GromacsOptions`);
  - the engine-string parser and the per-engine substitution (`Engines`);
  - `str.strip`, `str.split`, `str.upper`, `str.lower` and `str.replace` (`Strings`);
  - `str.format` with named fields (`Formats`);
  - the version comparison (`Versions`).
- The loops of the source are methods with loop invariants, proved against those functions:
  - the tool dispatch loop;
  - the key-deletion loop of `_prepare`;
  - the engine loop and the per-key replacement loop of `engines`;
  - the argument loop of `_parse_engine`;
  - the switch loop of `_get_gromacs_cmake_opts`.

The values from `config.py` are fields of `Inputs.Config`. These include `tools_order`, the minimum versions, `GMX_INSTALLATION_DIRECTORY`, `SIMD_MAPPER`, `GMX_ENGINE_SUFFIX_OPTIONS` and the two suffix formats. The `StrictVersion` parser is a parameter of the configuration. The model proves properties for every configuration that satisfies the stated requirements.

Three behaviours of the code that are easy to misread:

- `_configure` appends eight instructions (`container/recipes.py:349-377`): Python, `vim`, the scripts directory, three copies, the chmod and the PATH setting.
- `fftw` and `openmpi` without a preceding `gcc` fail on the unset `compiler` attribute. The "Implementation Error" message is only raised for a compiler object that has no toolchain.
- `regtest` ignores its argument. A `regtest` entry whose value is false still installs the regression-test preconfiguration.

The handlers' effects on the stage are also written as functions (`Effects`): each handler maps the stage's attributes to the attributes it leaves and its outcome, and `Effects.Run` runs a dispatch plan through them until one raises. The `Recipes.Stage` methods are proved to leave exactly what those functions compute.

## Model

| member | source | states |
|---|---|---|
| Recipes.Stage.constructor | container/recipes.py:22-24 | a new stage holds its arguments, its previous stage and the fixed CMake template, with nothing built yet |
| Recipes.Stage.Create | container/recipes.py:22-25 | constructing a stage runs `_build`: the arguments end up prepared, and the stage's instructions and other attributes are those the dispatch plan's handlers leave when run in order from an empty stage; the handlers that ran are the whole plan on success, or a non-empty prefix of it ending at the handler that raised |
| Recipes.Stage.Build | container/recipes.py:41-63 | `_build` prepares the arguments, then dispatches the tools; the stage ends with exactly the instructions and attributes that running the dispatch plan of the prepared arguments leaves, and the trace is the plan, or its prefix up to the handler that raised |
| Recipes.Stage.CallHandlers | container/recipes.py:51-60 | the dispatch loop calls, in tool order, the handler of every tool that is both in the arguments and a method of the stage, and stops at the first failure; the instructions only grow, the attributes are those the run of the plan leaves, a failure comes from the last traced handler, and the arguments and `_prepare`'s records are unchanged |
| Recipes.Stage.DispatchNext | container/recipes.py:55-60 | one more iteration of the loop extends the trace by the tool and leaves the stage as the run of the longer trace leaves it |
| Effects.HandlerEffect | container/recipes.py:60 | every handler only appends to the instruction list |
| Effects.DispatchableOf | container/recipes.py:51-60 | with arguments of the command line's shapes, every tool of the dispatch plan has a handler that takes its argument |
| Effects.Run | container/recipes.py:51-60 | running a plan calls at most all its handlers, all of them when none raises, at least one when one raises, and only appends instructions |
| Effects.RunLast | container/recipes.py:51-60 | the same for a non-empty plan whose last handler runs on what the others left |
| Effects.RunNext | container/recipes.py:51-60 | extending the plan by one tool runs that tool's handler on what the plan left, unless the plan already raised |
| Effects.RunStops | container/recipes.py:51-60 | once a prefix of the plan has raised, the handlers after it never run and the run's result is that prefix's |
| Effects.RunFailsAtLast | container/recipes.py:51-60 | a run that raised stopped at the last handler it ran, with all handlers before it passing |
| Effects.StoppedAtHandler | container/recipes.py:60 | the handler a run stopped at is the one that raised, run on the attributes the handlers before it left |
| Effects.RanPasses | container/recipes.py:51-60 | a run in which no handler raised traced the whole plan |
| Effects.PlanFails | container/recipes.py:51-60 | when the loop raises at a tool, the run of the whole plan is the run up to that tool, and it stopped there |
| Stages.HandlersOfKinds | container/recipes.py:51-60 | every stage has the common handlers; `fftw` belongs to the development stage only and `engines` to the application stage only; no stage has a `double` handler, and the application stage deletes only keys it has no handler for |
| Stages.DispatchPlanMembers | container/recipes.py:51-60 | a tool is dispatched exactly when it is in the tool order, in the arguments and among the stage's handlers |
| Stages.DispatchPlanInOrder | container/recipes.py:51-60 | with a repetition-free tool order, the dispatched tools are repetition-free and in tool order |
| Stages.DispatchPlanPrefix | container/recipes.py:51-60 | the tools dispatched from a prefix of the tool order are a prefix of the whole plan |
| Recipes.Stage.Prepare | container/recipes.py:27-39 | `_prepare` for each stage kind: `double` is recorded and removed; the application stage also records `regtest`, MPI and FFTW and removes `openmpi`, `impi` and `fftw`; every other argument is kept unchanged |
| Recipes.Stage.PrepareCommon | container/recipes.py:27-39 | `double` is removed and recorded when present, otherwise the attribute is left as it was; `cuda_enabled` is the truthiness of `cuda` |
| Recipes.Stage.PrepareApplication | container/recipes.py:206-216 | `regtest_enabled` defaults to false; MPI is on when `openmpi` or `impi` is truthy; FFTW is installed when `fftw` is truthy; those three keys and `double` are removed |
| Recipes.Stage.DeleteKeys | container/recipes.py:212-214 | after the loop a key is present exactly when it was present and is not one of the deleted keys, and surviving keys keep their values |
| Recipes.Stage.Dispatch | container/recipes.py:55-60 | a dispatched handler is recorded in the trace, leaves the stage's attributes and outcome exactly as that handler's effect says, and only appends to the instruction list |
| Recipes.Stage.DispatchCommon | container/recipes.py:65-118 | the handlers every stage has (`format`, `ubuntu`, `centos`, `cuda`, `cmake`, `gcc`) each have their effect |
| Recipes.Stage.DispatchDevelopment | container/recipes.py:149-175 | `fftw`, `openmpi` and `impi` each have their effect |
| Recipes.Stage.DispatchApplication | container/recipes.py:218-268 | `gromacs`, `regtest` and `engines` each have their effect |
| Recipes.Stage.DispatchGromacs | container/recipes.py:218-233 | the `gromacs` handler leaves the attributes and outcome its effect says |
| Recipes.Stage.Format | container/recipes.py:379-381 | `format` changes nothing outside the deployment stage; in the deployment stage it appends the eight `_configure` instructions, or only the first three when the previous stage has no wrapper |
| Recipes.Stage.Ubuntu | container/recipes.py:74-84 | without CUDA the stage gets the Ubuntu base image and, after a previous stage, that stage's runtime; with CUDA nothing is added |
| Recipes.Stage.Centos | container/recipes.py:86-96 | the same for the CentOS base image |
| Recipes.Stage.Cuda | container/recipes.py:98-102 | the CUDA handler always raises "not implemented" |
| Recipes.Stage.Cmake | container/recipes.py:104-109 | the CMake block is appended exactly when the version check passes, otherwise the check's error is returned and nothing is appended |
| Versions.VersionChecked | container/recipes.py:127-138 | the check succeeds, with the value true, exactly when both versions parse and the given one is not below the required one; an unparsable version and a too-old version are distinct errors |
| Versions.CompareIsLexLess | container/recipes.py:132 | the version comparison is below zero exactly when the first version is lexicographically smaller, with missing components counted as zero |
| Versions.CompareIsSameVersion | container/recipes.py:132 | the comparison is zero exactly when the versions agree after zero-padding |
| Versions.CompareAntisymmetric | container/recipes.py:132 | swapping the versions negates the comparison |
| Versions.CompareTransitive | container/recipes.py:132 | "not newer than" is transitive |
| Recipes.Stage.Gcc | container/recipes.py:111-118 | the GNU compiler block becomes the stage's compiler and is appended; its toolchain has the given version |
| Recipes.Stage.Fftw | container/recipes.py:149-163 | FFTW fails when double precision is unknown or there is no compiler, fails with the implementation error for a compiler without toolchain, and otherwise appends one FFTW block with that toolchain, the given version and the precision-dependent options |
| Stages.FftwOptionsFloat | container/recipes.py:153-156 | the six fixed configure options come first, and `--enable-float` is added exactly when double precision is off |
| Recipes.Stage.Openmpi | container/recipes.py:165-172 | OpenMPI is version-checked first, then needs a compiler with a toolchain, and otherwise appends one OpenMPI block with the CUDA flag, the toolchain and the version |
| Recipes.Stage.Impi | container/recipes.py:174-175 | the Intel MPI handler always raises "not implemented" |
| GromacsOptions.TemplateWellFormed | container/recipes.py:180-200 | the CMake template is a well-formed alternation of text and `$name$` placeholders, each placeholder followed by a space |
| GromacsOptions.TemplateHoles | container/recipes.py:180-200 | the template's placeholders are exactly its eleven names: the compilers, MPI, CUDA, SIMD, RDTSCP, double precision, FFT, regression test and the two suffixes |
| GromacsOptions.TemplateLinesOk | container/recipes.py:180-200 | every option line of the template is a valid segment: a placeholder name and `$`-free text starting with a space |
| Recipes.Stage.Gromacs | container/recipes.py:218-233 | `gromacs` appends the `wget` package block, sets the source directory, build directory, prefix, URL and build environment, stores the substituted CMake options or the error, and then sets the wrapper |
| Recipes.Stage.SetSources | container/recipes.py:219-230 | the source directory and URL embed the version; the build directory is `build.{simd}`, the prefix is the installation directory, and the build environment starts empty |
| Recipes.Stage.SetGromacsOpts | container/recipes.py:232 | the stored CMake options are the template with compilers, MPI, FFT and the three switches filled in, or the missing-double-precision error |
| Recipes.Stage.SetWrapper | container/recipes.py:233 | the wrapper is `gmx` followed by the wrapper suffix, and is left unset when the suffix fails |
| Recipes.Stage.GetGromacsCmakeOpts | container/recipes.py:283-313 | the result is the template with every non-engine placeholder replaced in the source's order; FFTW adds the prefix path to the build environment; unset double precision fails after that write |
| Recipes.Stage.ReplaceCompilers | container/recipes.py:290-297 | the compiler and MPI replacements equal substituting the compiler bindings: `mpicc`/`mpicxx`/`ON` with MPI, `gcc`/`g++`/`OFF` without |
| Recipes.Stage.ReplaceSwitches | container/recipes.py:306-311 | the loop over cuda, regtest and double replaces each placeholder with ON or OFF, which equals substituting the switch bindings |
| GromacsOptions.GromacsOptsRendered | container/recipes.py:283-313 | replacing the placeholders in the rendered template equals rendering the template with the bindings substituted |
| GromacsOptions.GromacsOptsValues | container/recipes.py:283-313 | each non-engine placeholder of the template is replaced by its intended value (compilers, MPI, GPU, regression test, double precision, FFT library), and only the engine placeholders remain |
| GromacsOptions.GromacsBindingsLeaveEngineHoles | container/recipes.py:283-313 | the stage-wide substitution leaves `simd`, `rdtscp`, `bin_suffix` and `libs_suffix` for the engine loop |
| GromacsOptions.GromacsBindingsCover | container/recipes.py:283-313 | every other placeholder of the template has a binding |
| GromacsOptions.GromacsBindingsOk | container/recipes.py:283-313 | all stage-wide bindings have valid placeholder names and `$`-free values |
| GromacsOptions.GromacsLookups | container/recipes.py:290-311 | looking up each placeholder name yields the value the source writes for it |
| Placeholders.ReplaceRendered | container/recipes.py:290-311 | `str.replace` of one `$name$` on a well-formed template equals substituting that placeholder, and no other text is touched |
| Placeholders.ReplaceAllRendered | container/recipes.py:290-311 | a sequence of such replacements equals substituting all the bindings |
| Placeholders.ReplaceAllAppend | container/recipes.py:290-311 | replacing with two binding lists one after the other equals replacing with their concatenation |
| Placeholders.SubstAllAt | container/recipes.py:290-311 | after substitution each placeholder holds its first bound value and unbound placeholders and text stay |
| Placeholders.SubstAllWellFormed | container/recipes.py:290-311 | substitution keeps a template well-formed |
| Placeholders.OpenHoles | container/recipes.py:290-311 | the placeholders left after substitution are exactly those without a binding |
| Placeholders.FilledRender | container/recipes.py:261 | a template with no placeholders left renders without any `$` |
| Placeholders.AssembleHoles | container/recipes.py:180-200 | the placeholder names of an assembled template are exactly its lines' names |
| Placeholders.AssembleWellFormed | container/recipes.py:180-200 | assembling valid lines gives a well-formed template |
| Placeholders.LookupNone | container/recipes.py:290-311 | a name has no binding exactly when it is not among the bound names |
| Recipes.Stage.Regtest | container/recipes.py:235-245 | with MPI the MPI preflags are appended to the stored options, failing if `gromacs` never ran; in every other case the preconfigure commands and the check flag are set regardless of the argument; the stage ends as the `regtest` effect says |
| Recipes.Stage.Engines | container/recipes.py:247-268 | the engine loop appends, in order, one CMake build per engine until the first failing engine, whose error is returned; the stage ends as the `engines` effect says |
| Engines.EngineRunBuilds | container/recipes.py:247-268 | the engine run appends one build per engine before the first failure, and the outcome is that failure or success |
| Engines.CollectInOrder | container/recipes.py:247-268 | collecting results keeps successful builds in order and stops at the first error |
| Recipes.Stage.BuildEngine | container/recipes.py:249-268 | one engine iteration computes exactly the engine's build or its error |
| Engines.EngineBuildErrors | container/recipes.py:249-252 | an empty engine string, an unparsable one and one without `rdtscp` each fail with their own error |
| Engines.EngineBuildResult | container/recipes.py:249-268 | a successful engine build is the CMake build of the engine's options |
| Engines.CmakeBuildResult | container/recipes.py:261-268 | the build gets the split options, the source directory, `build.<simd>`, the prefix, the build environment, the URL, the preconfigure commands and the check flag |
| Engines.BuildDirectoryOf | container/recipes.py:263 | formatting the build directory with a SIMD value gives `build.` followed by that value |
| Engines.EngineOptionsShape | container/recipes.py:249-259 | an engine with options is non-empty and parses to a dictionary that holds `rdtscp`, has stripped keys and whose SIMD value comes from the SIMD table |
| Engines.EngineOptionsFilled | container/recipes.py:249-268 | with `$`-free inputs and a template whose only placeholders are the engine ones, every placeholder is filled and the build's options contain no `$` |
| Recipes.Stage.ExpandOptions | container/recipes.py:253-259 | the suffix replacements and the per-key loop compute the engine expansion |
| Engines.ExpandEngineRendered | container/recipes.py:253-259 | the engine expansion of a rendered template equals substituting the suffixes, `simd` as is and every other key upper-cased |
| Engines.EngineBindingsLookup | container/recipes.py:253-259 | both suffix placeholders get the binary suffix; each engine key gets its value, upper-cased unless it is `simd` |
| Engines.EngineBindingsNames | container/recipes.py:253-259 | the engine bindings name the two suffix placeholders and the engine's keys |
| Engines.EngineBindingsOk | container/recipes.py:253-259 | the engine bindings are valid for `$`-free keys, values and suffix |
| Strings.UpperCases | container/recipes.py:258 | upper-casing keeps the length, leaves no lower-case ASCII letter, and introduces or removes no `$` |
| Strings.WordsCoverNonSpace | container/recipes.py:261 | `str.split()` yields non-empty words without whitespace whose concatenation is the input without its whitespace |
| Strings.WordsKeep | container/recipes.py:261 | a character absent from the input is absent from every word |
| Engines.ParseEngine | container/recipes.py:270-281 | the parsing loop computes exactly the engine-string parse: none for the empty string, the argument dictionary, or the first argument's error |
| Engines.ParseEngineNone | container/recipes.py:270-271 | parsing yields no dictionary exactly for the empty engine string |
| Engines.ParseEngineAccepts | container/recipes.py:270-281 | a non-empty engine string parses exactly when every `:`-separated piece is `key=value` with one `=` and, for `simd`, a known SIMD name |
| Engines.FillOk | container/recipes.py:273-281 | filling the dictionary succeeds exactly when every piece is acceptable |
| Engines.ParseArgOk | container/recipes.py:275-280 | one piece parses exactly when it splits into two parts on `=` and a `simd` value is in the mapper |
| Engines.ParseEngineString | container/recipes.py:270-281 | writing a dictionary with distinct keys back as `key = value` pieces and parsing it gives back the dictionary with SIMD names mapped |
| Engines.FillShape | container/recipes.py:273-281 | a parsed dictionary has distinct, stripped keys, mapped SIMD values, and no `$` when neither the input nor the mapper has one |
| Engines.PutKeys | container/recipes.py:280 | assigning a key adds exactly that key |
| Engines.PutFind | container/recipes.py:280 | after assigning, the key maps to the new value and every other key is unchanged |
| Engines.PutEntries | container/recipes.py:280 | every entry after assigning is either the assigned pair or the entry that was at the same position |
| Strings.JoinSplit | container/recipes.py:272-275 | joining the parts of `str.split(sep)` gives back the string |
| Strings.SplitJoin | container/recipes.py:272-275 | splitting a join of separator-free parts gives back the parts |
| Strings.StripParts | container/recipes.py:272-275 | `str.strip` removes only leading and trailing whitespace |
| Strings.StripPadded | container/recipes.py:272-275 | stripping whitespace padding around a stripped string gives the string back |
| Engines.SplitCount | container/recipes.py:272-275 | splitting yields one more part than there are separators |
| GromacsOptions.SuffixesDefined | container/recipes.py:315-331 | with a fitting configuration both suffixes are defined exactly when double precision was recorded, and fail on the missing attribute otherwise |
| GromacsOptions.RdtscpPart | container/recipes.py:323-331 | the binary suffix is the one without RDTSCP unless the engine's `rdtscp` is `on` in some letter case; then it is longer by the RDTSCP option for each place the format uses it |
| Strings.LowerIsOn | container/recipes.py:331 | lower-casing gives `on` exactly for the four spellings of `on` |
| Formats.Format | container/recipes.py:320-331 | `str.format` succeeds exactly when every field has a value, and fails on a missing key otherwise |
| Formats.FormatFieldLength | container/recipes.py:320-331 | giving a field a value instead of the empty string lengthens the result by that value's length for each of the field's occurrences |
| Formats.CoveredIsFieldNames | container/recipes.py:320-331 | a format is covered by a key set exactly when its field names are in the set |
| Recipes.Stage.Configure | container/recipes.py:344-377 | `_configure` appends Python, `vim`, the scripts directory, the wrapper copy, the chooser copy, the chmod, the configuration copy and the PATH setting; without a previous wrapper it stops after the first three |
| Stages.DeployLayout | container/recipes.py:344-377 | the deployment sequence has eight instructions in the source's order, with paths under `<installation>/scripts` |
| Stages.DeployCopiesIntoScripts | container/recipes.py:357-374 | for a previous-stage wrapper name without `/`, every file the deployment stage copies lands directly in the scripts directory: its destination is that directory, a `/`, and a non-empty name without `/` |
| Stages.DeployPath | container/recipes.py:376-377 | PATH is extended by the scripts directory |
| Stages.ScriptsPath | container/recipes.py:357 | the scripts directory is `<installation>/scripts`, and a relative name joins below it |

## Left out

- The hpccm library is not part of this model. Its building blocks and primitives are records of their arguments. `set_container_format` and the rendering of a stage are not modelled.
- `_cook` only prints the stage, so it is left out.
- `StrictVersion` parsing is a parameter of the configuration. Only the comparison of parsed versions is modelled.
- Versions.Compare: compares the numeric components only. `StrictVersion` pre-release tags such as `1.0a1` or `1.0b2`, which order before the release, are not modelled.
- Recipes.Stage.Format: does not model the container format setting, which lives in hpccm's global configuration.
- `str.upper` and `str.lower` are modelled for ASCII letters only. Other Unicode case mappings are not modelled.
- `str.format` is applied to formats given as parsed pieces (literal text and named fields). Brace parsing, escaped braces and format specifications are not modelled.
- `getattr(self, tool)` is the fixed handler table of each stage kind. Attributes that are not handler methods, such as `stage_name`, are not modelled as dispatch targets.
- `gromacs_docker_builds.py` and `config.py` are not part of this model. The tool order and the configuration values are parameters.
- Recipes.Stage.Build: requires that every argument `_prepare` does not delete has the shape the command line gives it: a version string for a tool with a version, a flag, or a list of engine strings. Arguments of other shapes are not modelled; what a handler would do with them is not defined by the model.
- Stages.DeployCopiesIntoScripts: holds only for a wrapper name without `/`. The wrapper name is `gmx` followed by the configured suffix, which the code does not check; a suffix holding `/` would put the wrapper copy in a subdirectory of the scripts directory.
- The previous stage is a snapshot of its runtime instructions and its `wrapper` attribute. The previous stage is complete before the next one is built and is never changed afterwards.
- Recipes.Stage.BuildEngine: reads a snapshot of the stage's attributes. The engine loop changes none of them.
- `os.path.join` is modelled for the cases the recipes use: an absolute second part replaces the first, and otherwise the parts are joined with one `/`.
- Errors are modelled as values that stop the build. Python's exception messages and tracebacks are not modelled.
