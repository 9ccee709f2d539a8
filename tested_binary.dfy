/** The `go_binary` module type (`goTestedBinaryModuleType`): a Go command
    package built with `go build`, optionally vendored first and optionally
    tested with `go test`, whose test report goes to one shared file. */
module TestedBinary {
  import opened Blueprint
  import Strings
  import Paths
  import opened Glob

  /** The properties the framework fills in from a `go_binary` block. */
  datatype BinaryProperties = BinaryProperties(
    pkg: string,
    testPkg: string,
    srcs: seq<string>,
    srcsExclude: seq<string>,
    vendorFirst: bool,
    deps: seq<string>)

  /** The zero value of the properties struct. */
  const EmptyProperties := BinaryProperties("", "", [], [], false, [])

  /** `s` matches `.*_test\.go$` from its first character: `.*` consumes
      `s[..j]` for some `j`, and `_test.go` runs from `j` to the end. */
  ghost predicate MatchesFromStart(s: string) {
    exists j :: 0 <= j <= |s| && s[j..] == "_test.go"
  }

  /** `regexp.Match` of `.*_test\.go$` on `f`: the match may start at any
      position `i`, since the expression is not anchored at the start. */
  ghost predicate MatchesTestPattern(f: string) {
    exists i :: 0 <= i <= |f| && MatchesFromStart(f[i..])
  }

  /** The regular expression matches exactly the paths ending in `_test.go`. */
  lemma TestPatternIsSuffix(f: string)
    ensures MatchesTestPattern(f) <==> Strings.HasSuffix(f, "_test.go")
  {
    if Strings.HasSuffix(f, "_test.go") {
      assert f[0..] == f;
      assert MatchesFromStart(f[0..]);
    }
    if MatchesTestPattern(f) {
      var i :| 0 <= i <= |f| && MatchesFromStart(f[i..]);
      var j :| 0 <= j <= |f[i..]| && f[i..][j..] == "_test.go";
      assert f[i..][j..] == f[i + j..];
    }
  }

  /** A test source: its path ends in `_test.go`, which is exactly where
      `.*_test\.go$` matches. */
  function IsTestFile(f: string): (t: bool)
    ensures t <==> MatchesTestPattern(f)
  {
    TestPatternIsSuffix(f);
    Strings.HasSuffix(f, "_test.go")
  }

  /** The files of `xs` that are not test sources, in order. */
  function NonTestFiles(xs: seq<string>): seq<string> {
    if xs == [] then []
    else if IsTestFile(xs[0]) then NonTestFiles(xs[1..])
    else [xs[0]] + NonTestFiles(xs[1..])
  }

  /** `outputPath`: `<BaseOutputDir>/bin/<name>`. */
  function OutputPath(base: string, name: string): string {
    Paths.Join([base, "bin", name])
  }

  /** `outputPathTest`: `<BaseOutputDir>/bin/test.txt`, whatever the module. */
  function TestOutputPath(base: string): string {
    Paths.Join([base, "bin", "test.txt"])
  }

  /** `vendorDirPath`: `<ModuleDir>/vendor`. */
  function VendorPath(dir: string): string {
    Paths.Join([dir, "vendor"])
  }

  /** The `go mod vendor` action: run in the module directory, it writes the
      `vendor` directory there, is optional, and depends only on `go.mod`
      beside it. */
  function VendorAction(name: string, dir: string): (a: BuildParams)
    ensures UsesDeclaredArgs(a) && a.rule == GoVendor && a.optional
    ensures a.args["workDir"] == dir && a.args["name"] == name
    ensures a.outputs == [Paths.Join([a.args["workDir"], "vendor"])]
    ensures a.implicits == [Paths.Join([a.args["workDir"], "go.mod"])]
  {
    BuildParams(GoVendor, "Vendor dependencies of " + name,
      [VendorPath(dir)], [Paths.Join([dir, "go.mod"])], true,
      map["workDir" := dir, "name" := name])
  }

  /** The implicit inputs of the build action as the code assembles them:
      `inputs` starts as `inputsTest`, then gets every non-test file of
      `inputsTest` appended, then the vendor path. */
  function BuildImplicits(vendorFirst: bool, dir: string, inputsTest: seq<string>): seq<string> {
    inputsTest + NonTestFiles(inputsTest) + (if vendorFirst then [VendorPath(dir)] else [])
  }

  /** The `go build` action with the implicit inputs `inputs`: the file it
      declares as output is the one `$outputPath` names, under `bin` of the
      base output directory. */
  function BuildAction(p: BinaryProperties, name: string, dir: string, base: string, inputs: seq<string>): (a: BuildParams)
    ensures UsesDeclaredArgs(a) && a.rule == GoBuild && !a.optional
    ensures a.outputs == [a.args["outputPath"]] && a.args["outputPath"] == Paths.Join([base, "bin", name])
    ensures a.args["workDir"] == dir && a.args["pkg"] == p.pkg && a.implicits == inputs
  {
    BuildParams(GoBuild, "Build " + name + " as Go binary",
      [OutputPath(base, name)], inputs, false,
      map["outputPath" := OutputPath(base, name), "workDir" := dir, "pkg" := p.pkg])
  }

  /** The `go test` action: its declared output is the file the command
      redirects the report to, the same `bin/test.txt` for every module. */
  function TestAction(p: BinaryProperties, name: string, dir: string, base: string, inputsTest: seq<string>): (a: BuildParams)
    ensures UsesDeclaredArgs(a) && a.rule == GoTest && !a.optional
    ensures a.outputs == [a.args["outputPath"]] && a.args["outputPath"] == Paths.Join([base, "bin", "test.txt"])
    ensures a.args["workDir"] == dir && a.args["pkg"] == p.testPkg && a.implicits == inputsTest
  {
    BuildParams(GoTest, "Test " + name + " and save results",
      [TestOutputPath(base)], inputsTest, false,
      map["outputPath" := TestOutputPath(base), "workDir" := dir, "pkg" := p.testPkg])
  }

  /** The actions a module whose patterns all globbed appends, in order:
      one build, plus one vendor action and one test action when asked for,
      each setting exactly the arguments its rule declares. */
  function BinaryActions(p: BinaryProperties, name: string, dir: string, base: string, inputsTest: seq<string>): (acts: seq<BuildParams>)
    ensures |acts| == 1 + (if p.vendorFirst then 1 else 0) + (if p.testPkg != "" then 1 else 0)
    ensures forall k :: 0 <= k < |acts| ==> UsesDeclaredArgs(acts[k])
  {
    (if p.vendorFirst then [VendorAction(name, dir)] else [])
    + [BuildAction(p, name, dir, base, BuildImplicits(p.vendorFirst, dir, inputsTest))]
    + (if p.testPkg != "" then [TestAction(p, name, dir, base, inputsTest)] else [])
  }

  /** The actions `GenerateBuildActions` appends: none at all when a pattern
      fails, `BinaryActions` otherwise, so at least the build action. */
  function EmittedActions(p: BinaryProperties, name: string, dir: string, base: string, glob: GlobOracle): (acts: seq<BuildParams>)
    ensures acts == [] <==> exists k :: 0 <= k < |p.srcs| && glob(p.srcs[k], p.srcsExclude).None?
  {
    var r := Resolve(p.srcs, p.srcsExclude, glob);
    ResolveFailedExactly(p.srcs, p.srcsExclude, glob);
    if r.failed != [] then [] else BinaryActions(p, name, dir, base, r.matches)
  }

  /** `NonTestFiles` distributes over concatenation. */
  lemma {:induction false} NonTestFilesAppend(a: seq<string>, b: seq<string>)
    ensures NonTestFiles(a + b) == NonTestFiles(a) + NonTestFiles(b)
  {
    if a == [] {
      assert a + b == b;
    } else {
      assert (a + b)[1..] == a[1..] + b;
      NonTestFilesAppend(a[1..], b);
    }
  }

  /** A file is kept exactly when it is an input and not a test source, and
      the kept files are never more than the inputs. */
  lemma {:induction false} NonTestFilesExactly(xs: seq<string>)
    ensures forall f :: f in NonTestFiles(xs) <==> f in xs && !IsTestFile(f)
    ensures |NonTestFiles(xs)| <= |xs|
  {
    if xs != [] {
      NonTestFilesExactly(xs[1..]);
      assert xs == [xs[0]] + xs[1..];
    }
  }

  /** The build action's implicit list holds exactly the matches (test
      sources included) and, when vendoring, the vendor path; it starts with
      all the matches in order and ends with the vendor path. */
  lemma BuildImplicitsExactly(vendorFirst: bool, dir: string, inputsTest: seq<string>)
    ensures forall f :: f in BuildImplicits(vendorFirst, dir, inputsTest) <==>
      f in inputsTest || (vendorFirst && f == VendorPath(dir))
    ensures BuildImplicits(vendorFirst, dir, inputsTest)[..|inputsTest|] == inputsTest
    ensures vendorFirst ==> BuildImplicits(vendorFirst, dir, inputsTest)[|BuildImplicits(vendorFirst, dir, inputsTest)| - 1] == VendorPath(dir)
  {
    NonTestFilesExactly(inputsTest);
  }

  /** The order of the actions: vendor first when asked for, then the build,
      then the test when there is a test package. */
  lemma BinaryActionsOrder(p: BinaryProperties, name: string, dir: string, base: string, inputsTest: seq<string>)
    ensures p.vendorFirst ==> BinaryActions(p, name, dir, base, inputsTest)[0].rule == GoVendor
    ensures BinaryActions(p, name, dir, base, inputsTest)[if p.vendorFirst then 1 else 0].rule == GoBuild
    ensures p.testPkg != "" ==> BinaryActions(p, name, dir, base, inputsTest)[|BinaryActions(p, name, dir, base, inputsTest)| - 1].rule == GoTest
  {
  }

  /** The vendor action writes `<ModuleDir>/vendor`, depends only on
      `<ModuleDir>/go.mod`, is optional, runs in the module directory under
      the module's name, and its output is one of the build
      action's implicit inputs, so ninja runs it first. */
  lemma VendorFeedsBuild(p: BinaryProperties, name: string, dir: string, base: string, inputsTest: seq<string>)
    requires p.vendorFirst
    ensures var acts := BinaryActions(p, name, dir, base, inputsTest);
      acts[0].outputs == [Paths.Join([dir, "vendor"])] &&
      acts[0].implicits == [Paths.Join([dir, "go.mod"])] &&
      acts[0].optional &&
      acts[0].args["workDir"] == dir && acts[0].args["name"] == name &&
      acts[0].outputs[0] in acts[1].implicits
  {
    var acts := BinaryActions(p, name, dir, base, inputsTest);
    assert acts[1].implicits[|acts[1].implicits| - 1] == VendorPath(dir);
  }

  /** The build action writes `<BaseOutputDir>/bin/<name>`, passes the same
      path as `outputPath`, the module directory as `workDir` and `Pkg` as
      `pkg`. */
  lemma BuildActionOutput(p: BinaryProperties, name: string, dir: string, base: string, inputsTest: seq<string>)
    ensures var b := BinaryActions(p, name, dir, base, inputsTest)[if p.vendorFirst then 1 else 0];
      b.outputs == [Paths.Join([base, "bin", name])] &&
      b.args["outputPath"] == b.outputs[0] &&
      b.args["workDir"] == dir &&
      b.args["pkg"] == p.pkg &&
      !b.optional
  {
  }

  /** A test action exists exactly when `TestPkg` is set; its implicit inputs
      are all the matches, which hold every build input except the vendor
      path; it runs in the module directory, is not optional, and writes
      `<BaseOutputDir>/bin/test.txt`, the path it passes as `outputPath`,
      whatever the module's name. */
  lemma {:induction false} TestCoversBuild(p: BinaryProperties, name: string, dir: string, base: string, inputsTest: seq<string>)
    ensures var acts := BinaryActions(p, name, dir, base, inputsTest);
      (exists k :: 0 <= k < |acts| && acts[k].rule == GoTest) <==> p.testPkg != ""
    ensures p.testPkg != "" ==>
      var acts := BinaryActions(p, name, dir, base, inputsTest);
      var t := acts[|acts| - 1];
      t.implicits == inputsTest &&
      t.outputs == [Paths.Join([base, "bin", "test.txt"])] &&
      t.args["outputPath"] == t.outputs[0] &&
      t.args["workDir"] == dir &&
      t.args["pkg"] == p.testPkg &&
      !t.optional &&
      forall f :: f in acts[if p.vendorFirst then 1 else 0].implicits && f != VendorPath(dir) ==> f in t.implicits
  {
    var acts := BinaryActions(p, name, dir, base, inputsTest);
    OnlyLastIsTest(p, name, dir, base, inputsTest);
    if p.testPkg != "" {
      assert acts[|acts| - 1] == TestAction(p, name, dir, base, inputsTest);
      assert acts[if p.vendorFirst then 1 else 0].implicits == BuildImplicits(p.vendorFirst, dir, inputsTest);
      NonTestFilesExactly(inputsTest);
    }
  }

  /** Only the last action can be a test action, and it is one exactly when
      there is a test package. */
  lemma OnlyLastIsTest(p: BinaryProperties, name: string, dir: string, base: string, inputsTest: seq<string>)
    ensures var acts := BinaryActions(p, name, dir, base, inputsTest);
      forall k :: 0 <= k < |acts| ==> (acts[k].rule == GoTest <==> p.testPkg != "" && k == |acts| - 1)
  {
    var v, b, t := VendorAction(name, dir),
      BuildAction(p, name, dir, base, BuildImplicits(p.vendorFirst, dir, inputsTest)),
      TestAction(p, name, dir, base, inputsTest);
    var acts := BinaryActions(p, name, dir, base, inputsTest);
    if p.vendorFirst && p.testPkg != "" {
      assert acts == [v, b, t];
    } else if p.vendorFirst {
      assert acts == [v, b];
    } else if p.testPkg != "" {
      assert acts == [b, t];
    } else {
      assert acts == [b];
    }
  }

  /** Two binary modules with a test package each claim the same test report,
      whatever their names and directories: the actions collide on one output
      whenever two such modules share a base output directory. */
  lemma TestOutputShared(p1: BinaryProperties, name1: string, dir1: string, in1: seq<string>,
                         p2: BinaryProperties, name2: string, dir2: string, in2: seq<string>, base: string)
    requires p1.testPkg != "" && p2.testPkg != ""
    ensures var a1 := BinaryActions(p1, name1, dir1, base, in1);
            var a2 := BinaryActions(p2, name2, dir2, base, in2);
            a1[|a1| - 1].outputs == a2[|a2| - 1].outputs
  {
  }

  /** A pattern that fails to glob suppresses every action of the module. */
  lemma FailureEmitsNothing(p: BinaryProperties, name: string, dir: string, base: string, glob: GlobOracle, k: nat)
    requires k < |p.srcs| && glob(p.srcs[k], p.srcsExclude).None?
    ensures EmittedActions(p, name, dir, base, glob) == []
  {
    ResolveFailedExactly(p.srcs, p.srcsExclude, glob);
  }

  /** The `go_binary` module: the properties the framework fills in. */
  class GoTestedBinaryModule {
    var properties: BinaryProperties

    constructor ()
      ensures properties == EmptyProperties
    {
      properties := EmptyProperties;
    }

    /** The modules this one must be generated after: `Deps` as declared. */
    function DynamicDependencies(): (deps: seq<string>)
      reads this
      ensures deps == properties.deps
    {
      properties.deps
    }

    /** Globs the sources, and unless a pattern failed, appends the vendor,
        build and test actions. Nothing but the context's logs changes. */
    method GenerateBuildActions(ctx: ModuleContext)
      modifies ctx`actions, ctx`errors, ctx`globCalls
      ensures ctx.actions == old(ctx.actions) +
        EmittedActions(properties, ctx.moduleName, ctx.moduleDir, ctx.config.baseOutputDir, ctx.glob)
      ensures ctx.errors == old(ctx.errors) +
        SrcsErrors(Resolve(properties.srcs, properties.srcsExclude, ctx.glob).failed)
      ensures ctx.globCalls == old(ctx.globCalls) + GlobCalls(properties.srcs, properties.srcsExclude)
    {
      var inputsTest, inputErrors := GlobSrcs(ctx, properties.srcs, properties.srcsExclude);
      if inputErrors {
        return;
      }
      AppendActions(ctx, inputsTest);
    }

    /** The part of `GenerateBuildActions` after a successful glob: appends
        the vendor, build and test actions for the matches `inputsTest`. */
    method AppendActions(ctx: ModuleContext, inputsTest: seq<string>)
      modifies ctx`actions
      ensures ctx.actions == old(ctx.actions) +
        BinaryActions(properties, ctx.moduleName, ctx.moduleDir, ctx.config.baseOutputDir, inputsTest)
    {
      var name, dir, base := ctx.moduleName, ctx.moduleDir, ctx.config.baseOutputDir;
      var inputs := AppendNonTestFiles(inputsTest);
      if properties.vendorFirst {
        ctx.Build(VendorAction(name, dir));
        inputs := inputs + [VendorPath(dir)];
      }
      assert inputs == BuildImplicits(properties.vendorFirst, dir, inputsTest);
      ctx.Build(BuildAction(properties, name, dir, base, inputs));
      ghost var sofar := (if properties.vendorFirst then [VendorAction(name, dir)] else [])
        + [BuildAction(properties, name, dir, base, inputs)];
      assert ctx.actions == old(ctx.actions) + sofar;
      if properties.testPkg != "" {
        ctx.Build(TestAction(properties, name, dir, base, inputsTest));
      }
    }
  }

  /** The index loop after globbing: appends every non-test file of
      `inputsTest` to a copy of `inputsTest`. */
  method AppendNonTestFiles(inputsTest: seq<string>) returns (inputs: seq<string>)
    ensures inputs == inputsTest + NonTestFiles(inputsTest)
  {
    inputs := inputsTest;
    for i := 0 to |inputsTest|
      invariant inputs == inputsTest + NonTestFiles(inputsTest[..i])
    {
      assert inputsTest[..i + 1] == inputsTest[..i] + [inputsTest[i]];
      NonTestFilesAppend(inputsTest[..i], [inputsTest[i]]);
      if !IsTestFile(inputsTest[i]) {
        inputs := inputs + [inputsTest[i]];
      }
    }
    assert inputsTest[..|inputsTest|] == inputsTest;
  }

  /** `TestedBinFactory`: a fresh module with zero-valued properties. */
  method TestedBinFactory() returns (m: GoTestedBinaryModule)
    ensures fresh(m) && m.properties == EmptyProperties
  {
    m := new GoTestedBinaryModule();
  }
}
