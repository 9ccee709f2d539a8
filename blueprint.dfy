/** What the two module types see of the Blueprint framework: the static rules
    they declare, the build-action record handed to `ctx.Build`, the error
    record of `ctx.PropertyErrorf`, and the module context itself. The context
    keeps the graph's action list, the module's error list and the log of glob
    calls (the dependencies `GlobWithDeps` registers) as sequences that its
    methods append to; the file system behind `GlobWithDeps` is an oracle. */
module Blueprint {

  datatype Option<T> = None | Some(value: T)

  /** The static rules declared with `pctx.StaticRule`. */
  datatype Rule = GoBuild | GoVendor | GoTest | ZipArchive {

    /** The rule name given to `StaticRule`. */
    function Name(): string {
      match this
      case GoBuild => "binaryBuild"
      case GoVendor => "vendor"
      case GoTest => "test"
      case ZipArchive => "zipArchive"
    }

    /** The argument names the rule declares; an action may set only these.
        Every command starts with `cd $workDir`, and every rule but the vendor
        rule writes the file named by `$outputPath`. */
    function ArgNames(): (names: set<string>)
      ensures "workDir" in names
      ensures "outputPath" in names <==> this != GoVendor
    {
      match this
      case GoBuild => {"workDir", "outputPath", "pkg"}
      case GoVendor => {"workDir", "name"}
      case GoTest => {"workDir", "outputPath", "pkg"}
      case ZipArchive => {"workDir", "outputPath", "inputFiles"}
    }
  }

  /** The four rules are registered under four different names, as one
      package context requires. */
  lemma RuleNamesDistinct(a: Rule, b: Rule)
    requires a.Name() == b.Name()
    ensures a == b
  {
  }

  /** `blueprint.BuildParams`: one action appended to the graph. */
  datatype BuildParams = BuildParams(
    rule: Rule,
    description: string,
    outputs: seq<string>,
    implicits: seq<string>,
    optional: bool,
    args: map<string, string>)

  /** An action that sets exactly the arguments its rule declares. */
  predicate UsesDeclaredArgs(a: BuildParams) {
    a.args.Keys == a.rule.ArgNames()
  }

  /** One `ctx.PropertyErrorf` report, with its message already formatted. */
  datatype PropertyError = PropertyError(property: string, message: string)

  /** One `ctx.GlobWithDeps(pattern, excludes)` call. */
  datatype GlobCall = GlobCall(pattern: string, excludes: seq<string>)

  /** What `GlobWithDeps` answers for a pattern and an exclusion list: the
      matching files, or `None` where it returns an error. */
  type GlobOracle = (string, seq<string>) -> Option<seq<string>>

  /** The part of `bood.Config` the module types read. */
  datatype Config = Config(baseOutputDir: string)

  /** `blueprint.ModuleContext` for one module during action generation. */
  class ModuleContext {
    const moduleName: string
    const moduleDir: string
    const config: Config
    const glob: GlobOracle

    /** The actions appended to the graph so far. */
    var actions: seq<BuildParams>
    /** The property errors reported so far. */
    var errors: seq<PropertyError>
    /** The glob calls made so far, in order. */
    var globCalls: seq<GlobCall>

    constructor (name: string, dir: string, config: Config, glob: GlobOracle)
      ensures moduleName == name && moduleDir == dir && this.config == config && this.glob == glob
      ensures actions == [] && errors == [] && globCalls == []
    {
      moduleName, moduleDir, this.config, this.glob := name, dir, config, glob;
      actions, errors, globCalls := [], [], [];
    }

    /** `ctx.GlobWithDeps`: answers from the oracle and records the call. */
    method GlobWithDeps(pattern: string, excludes: seq<string>) returns (matches: Option<seq<string>>)
      modifies this`globCalls
      ensures matches == glob(pattern, excludes)
      ensures globCalls == old(globCalls) + [GlobCall(pattern, excludes)]
    {
      matches := glob(pattern, excludes);
      globCalls := globCalls + [GlobCall(pattern, excludes)];
    }

    /** `ctx.PropertyErrorf`: records an error against a property. */
    method PropertyErrorf(property: string, message: string)
      modifies this`errors
      ensures errors == old(errors) + [PropertyError(property, message)]
    {
      errors := errors + [PropertyError(property, message)];
    }

    /** `ctx.Build`: appends one action to the graph. */
    method Build(params: BuildParams)
      modifies this`actions
      ensures actions == old(actions) + [params]
    {
      actions := actions + [params];
    }
  }
}
