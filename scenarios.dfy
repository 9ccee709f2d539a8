/** Concrete runs of the two module types. */
module Scenarios {
  import opened Blueprint
  import Paths
  import opened Glob
  import opened TestedBinary
  import ZipArchive

  /** The paths of a module in the root directory with output under `out`. */
  lemma RootModulePaths()
    ensures Paths.Join(["out", "bin", "test-out"]) == "out/bin/test-out"
    ensures Paths.Join([".", "vendor"]) == "vendor"
    ensures Paths.Join([".", "go.mod"]) == "go.mod"
  {
    Paths.JoinThree("out", "bin", "test-out");
    Paths.JoinDot("vendor");
    Paths.JoinDot("go.mod");
  }

  /** The file system of the framework test: only `test-src.go` exists. */
  function TestSrcOnly(pattern: string, excludes: seq<string>): Option<seq<string>> {
    if pattern == "test-src.go" then Some(["test-src.go"]) else None
  }

  /** The properties of the framework test's module. */
  const SimpleBin := BinaryProperties(".", "", ["test-src.go"], [], true, [])

  /** The framework test's module globs its one source and emits a vendor
      and a build action. */
  lemma SimpleBinEmits()
    ensures EmittedActions(SimpleBin, "test-out", ".", "out", TestSrcOnly) ==
      [VendorAction("test-out", "."),
       BuildAction(SimpleBin, "test-out", ".", "out", BuildImplicits(true, ".", ["test-src.go"]))]
  {
    assert Resolve(["test-src.go"], [], TestSrcOnly) == Resolved(["test-src.go"], []) by {
      assert ["test-src.go"][..0] == [];
    }
  }

  /** The build action of the framework test's module depends on its source
      (twice, as a match and as a non-test match) and on the vendor path. */
  lemma SimpleBinImplicits()
    ensures BuildImplicits(true, ".", ["test-src.go"]) == ["test-src.go", "test-src.go", "vendor"]
  {
    assert NonTestFiles(["test-src.go"]) == ["test-src.go"] by {
      assert !IsTestFile("test-src.go");
      assert ["test-src.go"][1..] == [];
    }
    Paths.JoinDot("vendor");
  }

  /** The module of the framework test (`name: "test-out"`, `srcs:
      ["test-src.go"]`, `pkg: "."`, `vendorFirst: true`), generated in the
      root directory with output under `out`: a vendor action
      `vendor: ... | go.mod` followed by a build of `out/bin/test-out` that
      depends on `test-src.go`, and no error. */
  method SimpleBinScenario() returns (actions: seq<BuildParams>, errors: seq<PropertyError>)
    ensures |actions| == 2
    ensures actions[0].rule == GoVendor && actions[0].outputs == ["vendor"] && actions[0].implicits == ["go.mod"]
    ensures actions[1].rule == GoBuild && actions[1].outputs == ["out/bin/test-out"]
    ensures actions[1].implicits == ["test-src.go", "test-src.go", "vendor"]
    ensures errors == []
  {
    var ctx := new ModuleContext("test-out", ".", Config("out"), TestSrcOnly);
    var m := TestedBinFactory();
    m.properties := m.properties.(srcs := ["test-src.go"], pkg := ".", vendorFirst := true);
    assert m.properties == SimpleBin;
    m.GenerateBuildActions(ctx);
    SimpleBinEmits();
    SimpleBinImplicits();
    RootModulePaths();
    ResolveFailedExactly(SimpleBin.srcs, SimpleBin.srcsExclude, TestSrcOnly);
    actions, errors := ctx.actions, ctx.errors;
  }

  /** A vendored module over `main.go`, `util.go` and `util_test.go` in the
      root directory: its build action depends on the test source too, and
      on each non-test source twice, before the vendor path. */
  lemma VendoredBuildKeepsTestSources()
    ensures BuildImplicits(true, ".", ["main.go", "util.go", "util_test.go"]) ==
      ["main.go", "util.go", "util_test.go", "main.go", "util.go", "vendor"]
  {
    var xs := ["main.go", "util.go", "util_test.go"];
    assert IsTestFile("util_test.go");
    assert !IsTestFile("main.go") && !IsTestFile("util.go");
    assert xs[1..] == ["util.go", "util_test.go"];
    assert xs[1..][1..] == ["util_test.go"];
    assert NonTestFiles(xs) == ["main.go", "util.go"];
    Paths.JoinDot("vendor");
  }

  /** An archive module whose only pattern matches nothing still appends its
      archive action, with no input files and no error. */
  method EmptyArchiveScenario() returns (actions: seq<BuildParams>, errors: seq<PropertyError>)
    ensures |actions| == 1 && actions[0].rule == Rule.ZipArchive
    ensures "inputFiles" in actions[0].args && actions[0].args["inputFiles"] == ""
    ensures errors == []
  {
    var ctx := new ModuleContext("pkg", ".", Config("out"), (p: string, e: seq<string>) => Some([]));
    var m := ZipArchive.ZipArchiveFactory();
    m.properties := m.properties.(srcs := ["bin/**"]);
    ZipArchive.NoMatchesStillArchives(m.properties, "pkg", ".", "out", ctx.glob);
    ResolveNoMatches(m.properties.srcs, m.properties.srcsExclude, ctx.glob);
    m.GenerateBuildActions(ctx);
    actions, errors := ctx.actions, ctx.errors;
  }
}
