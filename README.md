# Go binary and zip archive module types, in Dafny

This project models the two custom Blueprint module types of the `bood`
build system in `build/gomodule`: `go_binary` (`goTestedBinaryModuleType`)
and `zip_archive` (`zipArchiveModuleType`). During action generation each
takes one module's properties (`srcs`, `srcsExclude`, `pkg`, `testPkg`,
`vendorFirst`, `deps`), the module's name and directory and the configured
base output directory. It globs every `srcs` pattern. If any pattern fails,
it reports one `"srcs"` property error per failing pattern and appends
nothing. Otherwise it appends a fixed, ordered list of ninja build actions:

- `go_binary`: an optional `go mod vendor` action, a `go build` action and,
  when `testPkg` is set, a `go test` action;
- `zip_archive`: one `zip -r` action.

Files:

- `blueprint.dfy` (module `Blueprint`) holds what the module types use of
  the framework:
  - the four static rules as the enum `Rule`, with the argument names each
    one declares;
  - the action record `BuildParams` and the error record `PropertyError`;
  - the class `ModuleContext`. Its `Build`, `PropertyErrorf` and
    `GlobWithDeps` append to its `actions`, `errors` and `globCalls`
    sequences. `GlobWithDeps` answers from an oracle, a `GlobOracle`
    constant of the context.
- `glob.dfy` (module `Glob`) holds the `srcs` loop that both module types
  run, as the method `GlobSrcs`, and its specification `Resolve`.
- `tested_binary.dfy` and `zip_archive.dfy` each hold:
  - the module type as a class whose `properties` field the framework fills
    in;
  - `GenerateBuildActions`, proved to append exactly the actions of a
    specification function, `EmittedActions`;
  - the lemmas about `EmittedActions`.
- `strings.dfy` and `paths.dfy` hold `strings.Join` with its inverse
  `strings.Split`, and a simplified `path.Join`.
- `scenarios.dfy` replays the framework test `TestSimpleBinFactory` and two
  further concrete modules.

The build action's implicit inputs are modelled as the code builds them.
`inputs := inputsTest` starts the list with every match, test sources
included. The loop then appends each non-test match a second time, and the
vendor path comes last. So a vendored module over `main.go`, `util.go` and
`util_test.go` depends on `main.go util.go util_test.go main.go util.go
vendor`. It does not depend on the non-test sources only, as the two
variables `inputsTest` and `inputs` might suggest
(`Scenarios.VendoredBuildKeepsTestSources`).

The test report path `<BaseOutputDir>/bin/test.txt` does not depend on the
module. Any two `go_binary` modules with a test package therefore claim the
same output (`TestedBinary.TestOutputShared`).

## Model

| member | source | states |
|---|---|---|
| `Strings.Join` | build/gomodule/zip-archive.go:66 | `strings.Join`: empty for an empty list; otherwise the joined string starts with the first element |
| `Strings.JoinLength` | build/gomodule/zip-archive.go:66 | a join of a non-empty list is as long as its elements together plus one separator between each pair of neighbours |
| `Strings.SplitJoin` | build/gomodule/zip-archive.go:66 | splitting a join at its one-character separator gives back the non-empty list, when no element holds the separator |
| `Strings.JoinSplit` | build/gomodule/zip-archive.go:66 | joining a split gives back any string: the two are inverse |
| `Paths.Join` | build/gomodule/tested-binary.go:57-58 | `path.Join` gives the empty string exactly when every element is empty |
| `Paths.JoinThree` | build/gomodule/tested-binary.go:57-58 | three elements, none empty or `.`, are joined with a `/` between each pair |
| `Paths.JoinDot` | build/gomodule/tested-binary.go:81-86 | a leading `.` element disappears: `path.Join(".", b)` is `b` |
| `Paths.JoinSplitsIntoSegments` | build/gomodule/tested-binary.go:57 | splitting a joined path at `/` gives back the non-empty, non-`.` elements, when none holds a `/` |
| `Blueprint.Rule.ArgNames` | build/gomodule/tested-binary.go:17-32 | the argument names each static rule declares (also zip-archive.go:17-20): every rule declares `workDir`, and every rule but the vendor rule declares `outputPath` |
| `Blueprint.RuleNamesDistinct` | build/gomodule/tested-binary.go:17-32 | the four rules `binaryBuild`, `vendor`, `test` and `zipArchive` (zip-archive.go:17) are registered under pairwise different names |
| `Blueprint.ModuleContext.GlobWithDeps` | build/gomodule/tested-binary.go:63 | returns the oracle's answer for the pattern and exclusions, and records the call |
| `Blueprint.ModuleContext.PropertyErrorf` | build/gomodule/tested-binary.go:66 | appends one error for the property, and changes nothing else |
| `Blueprint.ModuleContext.Build` | build/gomodule/tested-binary.go:96-106 | appends one action to the graph, and changes nothing else |
| `Glob.GlobSrcs` | build/gomodule/tested-binary.go:60-69 | the `srcs` loop (also zip-archive.go:44-53): every pattern is globbed once, in order, with the same exclusion list; the result is the matches `Resolve` gives; one `"srcs"` error per failing pattern; the error flag is set iff some pattern failed; no action is appended |
| `Glob.Resolve` | build/gomodule/tested-binary.go:60-69 | what the `srcs` loop computes: the matches in order and the failing patterns in order, at most one report per pattern |
| `Glob.ResolveAppend` | build/gomodule/tested-binary.go:62-64 | resolving `a + b` gives the matches of `a` then of `b`, and the failures of `a` then of `b`: the match list concatenates the per-pattern matches in `srcs` order |
| `Glob.ResolveFailedExactly` | build/gomodule/tested-binary.go:62-68 | a pattern is reported iff it is in `srcs` and fails to glob; nothing is reported iff every pattern globs |
| `Glob.ResolveMatchesExactly` | build/gomodule/tested-binary.go:62-64 | a file is matched iff some pattern of `srcs` globbed and returned it |
| `Glob.ResolveNoMatches` | build/gomodule/zip-archive.go:44-53 | when every pattern (or none) globs to no file, there are no matches and no failures |
| `TestedBinary.TestPatternIsSuffix` | build/gomodule/tested-binary.go:75 | `regexp.Match` of `.*_test\.go$`, not anchored at the start, matches a path exactly when the path ends in `_test.go` |
| `TestedBinary.IsTestFile` | build/gomodule/tested-binary.go:75 | the test-source check holds exactly where the regular expression matches |
| `TestedBinary.NonTestFilesAppend` | build/gomodule/tested-binary.go:74-78 | filtering out test sources distributes over concatenation |
| `TestedBinary.NonTestFilesExactly` | build/gomodule/tested-binary.go:74-78 | a file survives the filter iff it is an input not ending in `_test.go`; the filter never lengthens the list |
| `TestedBinary.AppendNonTestFiles` | build/gomodule/tested-binary.go:70-78 | the index loop leaves `inputsTest` followed by its non-test files |
| `TestedBinary.BuildImplicitsExactly` | build/gomodule/tested-binary.go:70-100 | the build action's implicit inputs are exactly the matches (test sources included) plus, when vendoring, the vendor path; the matches come first in order, the vendor path last |
| `TestedBinary.VendorAction` | build/gomodule/tested-binary.go:80-92 | the vendor action sets exactly its rule's arguments, runs in the module directory under the module's name, writes the `vendor` directory of its `workDir`, depends only on the `go.mod` there, and is optional |
| `TestedBinary.BuildAction` | build/gomodule/tested-binary.go:96-106 | the build action sets exactly its rule's arguments; its one declared output is the path it passes as `outputPath`, `<base>/bin/<name>`; `workDir` is the module directory, `pkg` is `Pkg`, its implicit inputs are the list it is given, and it is not optional |
| `TestedBinary.TestAction` | build/gomodule/tested-binary.go:108-119 | the test action sets exactly its rule's arguments; its one declared output is the report file it passes as `outputPath`, `<base>/bin/test.txt`; `workDir` is the module directory, `pkg` is `TestPkg`, its implicit inputs are the matches, and it is not optional |
| `TestedBinary.BinaryActions` | build/gomodule/tested-binary.go:80-120 | after successful globbing, `1 + (vendorFirst ? 1 : 0) + (testPkg != "" ? 1 : 0)` actions, each setting exactly the arguments its rule declares |
| `TestedBinary.EmittedActions` | build/gomodule/tested-binary.go:60-120 | no action at all exactly when some `srcs` pattern fails to glob |
| `TestedBinary.BinaryActionsOrder` | build/gomodule/tested-binary.go:80-120 | the actions come in the order vendor, build, test |
| `TestedBinary.OnlyLastIsTest` | build/gomodule/tested-binary.go:108-120 | an action is a test action exactly when it is the last one and `TestPkg` is set |
| `TestedBinary.VendorFeedsBuild` | build/gomodule/tested-binary.go:80-94 | the vendor action writes `<dir>/vendor`, depends only on `<dir>/go.mod`, is optional, passes the module directory as `workDir` and the module name as `name`, and its output is an implicit input of the build action |
| `TestedBinary.BuildActionOutput` | build/gomodule/tested-binary.go:96-106 | the build action writes `<base>/bin/<name>`, passes that same path as `outputPath`, the module directory as `workDir` and `Pkg` as `pkg`, and is not optional |
| `TestedBinary.TestCoversBuild` | build/gomodule/tested-binary.go:108-120 | a test action exists iff `TestPkg` is set; its implicit inputs are exactly the matches and contain every build input except the vendor path; it writes `<base>/bin/test.txt`, passes that path as `outputPath`, the module directory as `workDir` and `TestPkg` as `pkg`, and is not optional |
| `TestedBinary.TestOutputShared` | build/gomodule/tested-binary.go:58 | any two modules with a test package under one base output directory write the same test report path |
| `TestedBinary.FailureEmitsNothing` | build/gomodule/tested-binary.go:70-73 | one failing pattern suppresses every action of the module |
| `TestedBinary.GoTestedBinaryModule.DynamicDependencies` | build/gomodule/tested-binary.go:48-50 | returns the declared `Deps` unchanged |
| `TestedBinary.GoTestedBinaryModule.GenerateBuildActions` | build/gomodule/tested-binary.go:52-121 | appends exactly `EmittedActions` (nothing if a pattern failed, else vendor/build/test as above), one `"srcs"` error per failing pattern, one glob call per pattern, and changes nothing else |
| `TestedBinary.GoTestedBinaryModule.AppendActions` | build/gomodule/tested-binary.go:74-120 | after successful globbing, appends exactly `BinaryActions` for the matches: the vendor action when `VendorFirst`, the build action over the matches, their non-test files and the vendor path, and the test action when `TestPkg` is set |
| `TestedBinary.TestedBinFactory` | build/gomodule/tested-binary.go:124-127 | returns a freshly allocated module with zero-valued properties |
| `ZipArchive.ArchiveAction` | build/gomodule/zip-archive.go:58-68 | the archive action sets exactly its rule's arguments; its one declared output is the path it passes as `outputPath`, `<base>/archives/<name>`; `workDir` is the module directory; it has no implicit inputs; splitting `inputFiles` at spaces gives back the files, when there is one and none holds a space |
| `ZipArchive.EmittedActions` | build/gomodule/zip-archive.go:44-68 | at most one action, and none exactly when some `srcs` pattern fails to glob |
| `ZipArchive.EmittedArchive` | build/gomodule/zip-archive.go:54-68 | one action iff every pattern globs, else none; it writes `<base>/archives/<name>`, passes that path as `outputPath`, the module directory as `workDir` and the space-joined matches as `inputFiles`, has no implicit inputs, and sets exactly the declared arguments |
| `ZipArchive.InputFilesListMatches` | build/gomodule/zip-archive.go:66 | `inputFiles` split at spaces gives back the matches in `srcs` order, when there is one and none holds a space |
| `ZipArchive.NoMatchesStillArchives` | build/gomodule/zip-archive.go:44-66 | an empty or no-match `srcs` list still appends the archive action, with `inputFiles` empty |
| `ZipArchive.DepsDoNotFeedArchive` | build/gomodule/zip-archive.go:33-35 | modules that differ only in `Deps` emit the same actions |
| `ZipArchive.ZipArchiveModule.DynamicDependencies` | build/gomodule/zip-archive.go:33-35 | returns the declared `Deps` unchanged |
| `ZipArchive.ZipArchiveModule.GenerateBuildActions` | build/gomodule/zip-archive.go:37-70 | appends exactly `EmittedActions` (nothing if a pattern failed, else the one archive action), one `"srcs"` error per failing pattern, one glob call per pattern, and changes nothing else |
| `ZipArchive.ZipArchiveFactory` | build/gomodule/zip-archive.go:73-76 | returns a freshly allocated module with zero-valued properties |
| `Scenarios.RootModulePaths` | build/gomodule/tested-binary.go:57-86 | under base `out` and module directory `.`, the paths are `out/bin/test-out`, `vendor` and `go.mod` |
| `Scenarios.SimpleBinEmits` | build/gomodule/tested-binary_test.go:15-54 | the test module's one pattern resolves, so it emits a vendor action and a build action and no test action |
| `Scenarios.SimpleBinImplicits` | build/gomodule/tested-binary.go:74-93 | the test module's build depends on `test-src.go` twice, then on `vendor` |
| `Scenarios.SimpleBinScenario` | build/gomodule/tested-binary_test.go:15-54 | the test module yields a vendor action `vendor` depending on `go.mod`, then a build of `out/bin/test-out` depending on `test-src.go`, and no error |
| `Scenarios.VendoredBuildKeepsTestSources` | build/gomodule/tested-binary.go:70-93 | over `main.go`, `util.go` and `util_test.go`, the vendored build depends on `main.go util.go util_test.go main.go util.go vendor` |
| `Scenarios.EmptyArchiveScenario` | build/gomodule/zip-archive.go:44-66 | an archive whose only pattern matches nothing still gets its action, with empty `inputFiles` and no error |

## Left out

- `build/cmd/bood/main.go` is not part of this model: flag parsing, logger setup, the registration of the two factories and the run of the external `ninja` process are I/O.
- The Blueprint framework itself is not modelled: parsing Blueprints files, scheduling modules after their `DynamicDependencies`, checking that module names and outputs are unique, and writing the ninja file. The model only records the actions, errors and glob calls a module hands to its context.
- `GlobWithDeps` is an oracle: the file system, glob syntax, how `srcsExclude` removes files, and the registration of globbed files as ninja-file dependencies are its business. The model logs each call with its pattern and exclusion list.
- Regular expressions in general are not modelled. Only the one pattern `.*_test\.go$` is, by the predicate `MatchesTestPattern`, and `TestedBinary.TestPatternIsSuffix` proves it equal to a suffix test on `_test.go`.
- Paths.Join: models `path.Join` without the full `path.Clean`. It drops empty and `.` elements but does not resolve `..`, collapse repeated slashes inside an element, remove trailing slashes, or drop `.` components inside an element (Go's `path.Join("./x", "vendor")` is `x/vendor`, the model's is `./x/vendor`). Module directories reach the module types already clean, so the paths the model computes for them agree with Go's.
- The factories' second result, the list of property-struct pointers the framework fills in by reflection, is left out. In the model, the framework writes the `properties` field.
- Debug logging, the package context `pctx`, and the rules' command templates are left out. They are text that ninja runs, not logic of the module types. Rule descriptions and action descriptions are kept only as plain strings.
- Go's distinction between a nil slice and an empty one is not modelled. Both are `[]`.
- `PropertyErrorf` receives its message already formatted (`fmt.Sprintf` with a `%s` argument is string concatenation here).
