/** The `zip_archive` module type (`zipArchiveModuleType`): one `zip -r`
    action over the files its `srcs` patterns match. */
module ZipArchive {
  import opened Blueprint
  import Strings
  import Paths
  import opened Glob

  /** The properties the framework fills in from a `zip_archive` block. */
  datatype ArchiveProperties = ArchiveProperties(
    srcs: seq<string>,
    srcsExclude: seq<string>,
    deps: seq<string>)

  /** The zero value of the properties struct. */
  const EmptyProperties := ArchiveProperties([], [], [])

  /** `outputPath`: `<BaseOutputDir>/archives/<name>`. */
  function ArchivePath(base: string, name: string): string {
    Paths.Join([base, "archives", name])
  }

  /** The archive action over the matched files: it writes the archive that
      `$outputPath` names, has no implicit inputs, and passes the files
      space-separated in `inputFiles`, from which splitting at spaces
      recovers them when there is one and none holds a space. */
  function ArchiveAction(name: string, dir: string, base: string, inputs: seq<string>): (a: BuildParams)
    ensures UsesDeclaredArgs(a) && a.rule == Rule.ZipArchive && !a.optional && a.implicits == []
    ensures a.outputs == [a.args["outputPath"]] && a.args["outputPath"] == Paths.Join([base, "archives", name])
    ensures a.args["workDir"] == dir
    ensures inputs != [] && (forall k :: 0 <= k < |inputs| ==> !Strings.Contains(inputs[k], ' ')) ==>
      Strings.Split(a.args["inputFiles"], ' ') == inputs
  {
    assert inputs != [] && (forall k :: 0 <= k < |inputs| ==> !Strings.Contains(inputs[k], ' ')) ==>
      Strings.Split(Strings.Join(inputs, " "), ' ') == inputs by {
      if inputs != [] && (forall k :: 0 <= k < |inputs| ==> !Strings.Contains(inputs[k], ' ')) {
        Strings.SplitJoin(inputs, ' ');
      }
    }
    BuildParams(Rule.ZipArchive, "Create " + name + " zip archive",
      [ArchivePath(base, name)], [], false,
      map["workDir" := dir, "outputPath" := ArchivePath(base, name),
          "inputFiles" := Strings.Join(inputs, " ")])
  }

  /** The actions `GenerateBuildActions` appends: none when a pattern fails,
      the archive action otherwise. */
  function EmittedActions(p: ArchiveProperties, name: string, dir: string, base: string, glob: GlobOracle): (acts: seq<BuildParams>)
    ensures |acts| <= 1
    ensures acts == [] <==> exists k :: 0 <= k < |p.srcs| && glob(p.srcs[k], p.srcsExclude).None?
  {
    var r := Resolve(p.srcs, p.srcsExclude, glob);
    ResolveFailedExactly(p.srcs, p.srcsExclude, glob);
    if r.failed != [] then [] else [ArchiveAction(name, dir, base, r.matches)]
  }

  /** On success exactly one action is appended: it writes
      `<BaseOutputDir>/archives/<name>`, passes that path as `outputPath` and
      the module directory as `workDir`, sets only the arguments the rule
      declares, and has no implicit inputs; a failing pattern appends none. */
  lemma EmittedArchive(p: ArchiveProperties, name: string, dir: string, base: string, glob: GlobOracle)
    ensures var acts := EmittedActions(p, name, dir, base, glob);
      |acts| == (if forall k :: 0 <= k < |p.srcs| ==> glob(p.srcs[k], p.srcsExclude).Some? then 1 else 0)
    ensures forall a :: a in EmittedActions(p, name, dir, base, glob) ==>
      a.rule == Rule.ZipArchive &&
      a.outputs == [Paths.Join([base, "archives", name])] &&
      a.args["outputPath"] == a.outputs[0] &&
      a.args["workDir"] == dir &&
      a.implicits == [] &&
      a.args["inputFiles"] == Strings.Join(Resolve(p.srcs, p.srcsExclude, glob).matches, " ") &&
      UsesDeclaredArgs(a)
  {
    ResolveFailedExactly(p.srcs, p.srcsExclude, glob);
  }

  /** The `inputFiles` argument carries the matches in `srcs` order: split at
      spaces it gives them back, provided there is at least one and no path
      holds a space. */
  lemma {:induction false} InputFilesListMatches(p: ArchiveProperties, name: string, dir: string, base: string, glob: GlobOracle)
    requires Resolve(p.srcs, p.srcsExclude, glob).failed == []
    requires var ms := Resolve(p.srcs, p.srcsExclude, glob).matches;
      ms != [] && forall k :: 0 <= k < |ms| ==> !Strings.Contains(ms[k], ' ')
    ensures Strings.Split(EmittedActions(p, name, dir, base, glob)[0].args["inputFiles"], ' ') ==
      Resolve(p.srcs, p.srcsExclude, glob).matches
  {
    Strings.SplitJoin(Resolve(p.srcs, p.srcsExclude, glob).matches, ' ');
  }

  /** An empty `srcs` list, or one whose every pattern matches nothing, is not
      an error: the archive action is still appended, with empty
      `inputFiles`. */
  lemma {:induction false} NoMatchesStillArchives(p: ArchiveProperties, name: string, dir: string, base: string, glob: GlobOracle)
    requires forall k :: 0 <= k < |p.srcs| ==> glob(p.srcs[k], p.srcsExclude) == Some([])
    ensures var acts := EmittedActions(p, name, dir, base, glob);
      |acts| == 1 && acts[0].args["inputFiles"] == ""
  {
    ResolveNoMatches(p.srcs, p.srcsExclude, glob);
  }

  /** The declared dependencies play no part in the emitted actions: two
      modules that differ only in `Deps` emit the same archive action. */
  lemma DepsDoNotFeedArchive(p: ArchiveProperties, q: ArchiveProperties, name: string, dir: string, base: string, glob: GlobOracle)
    requires p.srcs == q.srcs && p.srcsExclude == q.srcsExclude
    ensures EmittedActions(p, name, dir, base, glob) == EmittedActions(q, name, dir, base, glob)
  {
  }

  /** The `zip_archive` module: the properties the framework fills in. */
  class ZipArchiveModule {
    var properties: ArchiveProperties

    constructor ()
      ensures properties == EmptyProperties
    {
      properties := EmptyProperties;
    }

    /** The modules this one must be generated after: `Deps` as declared. */
    function DynamicDependencies(): (deps: seq<string>)
      reads this
      ensures deps == properties.deps
    {
      properties.deps
    }

    /** Globs the sources, and unless a pattern failed, appends the archive
        action. Nothing but the context's logs changes. */
    method GenerateBuildActions(ctx: ModuleContext)
      modifies ctx`actions, ctx`errors, ctx`globCalls
      ensures ctx.actions == old(ctx.actions) +
        EmittedActions(properties, ctx.moduleName, ctx.moduleDir, ctx.config.baseOutputDir, ctx.glob)
      ensures ctx.errors == old(ctx.errors) +
        SrcsErrors(Resolve(properties.srcs, properties.srcsExclude, ctx.glob).failed)
      ensures ctx.globCalls == old(ctx.globCalls) + GlobCalls(properties.srcs, properties.srcsExclude)
    {
      var name := ctx.moduleName;
      var outputPath := Paths.Join([ctx.config.baseOutputDir, "archives", name]);

      var inputs, inputErrors := GlobSrcs(ctx, properties.srcs, properties.srcsExclude);
      if inputErrors {
        return;
      }

      ctx.Build(BuildParams(Rule.ZipArchive, "Create " + name + " zip archive",
        [outputPath], [], false,
        map["workDir" := ctx.moduleDir, "outputPath" := outputPath,
            "inputFiles" := Strings.Join(inputs, " ")]));
    }
  }

  /** `ZipArchiveFactory`: a fresh module with zero-valued properties. */
  method ZipArchiveFactory() returns (m: ZipArchiveModule)
    ensures fresh(m) && m.properties == EmptyProperties
  {
    m := new ZipArchiveModule();
  }
}
