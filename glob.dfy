/** The loop over `srcs` that both module types run before emitting anything:
    every pattern is globbed with the same exclusion list, the matches are
    concatenated in `srcs` order, and every failing pattern is reported as a
    `"srcs"` property error. `Resolve` is its specification; `GlobSrcs` is
    the loop itself. */
module Glob {
  import opened Blueprint

  /** The outcome of globbing a list of patterns: all matches in order, and
      the patterns that could not be resolved, in order. */
  datatype Resolved = Resolved(matches: seq<string>, failed: seq<string>)

  /** What the loop has computed after the patterns `srcs`: at most one
      report per pattern. */
  function Resolve(srcs: seq<string>, excludes: seq<string>, glob: GlobOracle): (r: Resolved)
    ensures |r.failed| <= |srcs|
    decreases |srcs|
  {
    if srcs == [] then Resolved([], [])
    else
      var before := Resolve(srcs[..|srcs| - 1], excludes, glob);
      var src := srcs[|srcs| - 1];
      match glob(src, excludes)
      case Some(ms) => Resolved(before.matches + ms, before.failed)
      case None => Resolved(before.matches, before.failed + [src])
  }

  /** The message `PropertyErrorf` formats for a pattern that fails. */
  function CannotResolve(src: string): string {
    "Cannot resolve files that match pattern " + src
  }

  /** One `"srcs"` error per failing pattern, in order. */
  function SrcsErrors(failed: seq<string>): (errs: seq<PropertyError>)
    ensures |errs| == |failed|
    ensures forall k :: 0 <= k < |failed| ==>
      errs[k] == PropertyError("srcs", CannotResolve(failed[k]))
  {
    seq(|failed|, k requires 0 <= k < |failed| => PropertyError("srcs", CannotResolve(failed[k])))
  }

  /** One glob call per pattern, each with the same exclusion list. */
  function GlobCalls(srcs: seq<string>, excludes: seq<string>): (calls: seq<GlobCall>)
    ensures |calls| == |srcs|
    ensures forall k :: 0 <= k < |srcs| ==> calls[k] == GlobCall(srcs[k], excludes)
  {
    seq(|srcs|, k requires 0 <= k < |srcs| => GlobCall(srcs[k], excludes))
  }

  /** Resolving a list in two parts gives the matches and failures of the
      first part followed by those of the second: the match list is the
      concatenation of the per-pattern matches in `srcs` order. */
  lemma {:induction false} ResolveAppend(a: seq<string>, b: seq<string>, excludes: seq<string>, glob: GlobOracle)
    ensures Resolve(a + b, excludes, glob) ==
      Resolved(Resolve(a, excludes, glob).matches + Resolve(b, excludes, glob).matches,
               Resolve(a, excludes, glob).failed + Resolve(b, excludes, glob).failed)
    decreases |b|
  {
    if b == [] {
      assert a + b == a;
    } else {
      var b' := b[..|b| - 1];
      assert (a + b)[..|a + b| - 1] == a + b';
      ResolveAppend(a, b', excludes, glob);
    }
  }

  /** A pattern is reported exactly when it is one of `srcs` and globbing it
      fails; so nothing is reported exactly when every pattern globs. */
  lemma {:induction false} ResolveFailedExactly(srcs: seq<string>, excludes: seq<string>, glob: GlobOracle)
    ensures forall p :: p in Resolve(srcs, excludes, glob).failed <==> p in srcs && glob(p, excludes).None?
    ensures Resolve(srcs, excludes, glob).failed == [] <==>
      forall k :: 0 <= k < |srcs| ==> glob(srcs[k], excludes).Some?
    decreases |srcs|
  {
    if srcs != [] {
      var init := srcs[..|srcs| - 1];
      ResolveFailedExactly(init, excludes, glob);
      assert srcs == init + [srcs[|srcs| - 1]];
      if forall k :: 0 <= k < |srcs| ==> glob(srcs[k], excludes).Some? {
        assert forall k :: 0 <= k < |init| ==> glob(init[k], excludes).Some? by {
          forall k | 0 <= k < |init| ensures glob(init[k], excludes).Some? {
            assert init[k] == srcs[k];
          }
        }
      }
    }
  }

  /** Every match comes from one of the patterns that globbed, and every file
      of a pattern that globbed is among the matches. */
  lemma {:induction false} ResolveMatchesExactly(srcs: seq<string>, excludes: seq<string>, glob: GlobOracle)
    ensures forall f :: f in Resolve(srcs, excludes, glob).matches <==>
      exists k :: 0 <= k < |srcs| && glob(srcs[k], excludes).Some? && f in glob(srcs[k], excludes).value
    decreases |srcs|
  {
    if srcs != [] {
      var n := |srcs| - 1;
      var init := srcs[..n];
      ResolveMatchesExactly(init, excludes, glob);
      forall f
        ensures f in Resolve(srcs, excludes, glob).matches <==>
          exists k :: 0 <= k < |srcs| && glob(srcs[k], excludes).Some? && f in glob(srcs[k], excludes).value
      {
        if exists k :: 0 <= k < |srcs| && glob(srcs[k], excludes).Some? && f in glob(srcs[k], excludes).value {
          var k :| 0 <= k < |srcs| && glob(srcs[k], excludes).Some? && f in glob(srcs[k], excludes).value;
          if k < n {
            assert init[k] == srcs[k];
          }
        }
        if f in Resolve(init, excludes, glob).matches {
          var k :| 0 <= k < |init| && glob(init[k], excludes).Some? && f in glob(init[k], excludes).value;
          assert srcs[k] == init[k];
        }
      }
    }
  }

  /** When every pattern globs to no file, nothing matches and nothing fails
      (an empty `srcs` list being the simplest case). */
  lemma {:induction false} ResolveNoMatches(srcs: seq<string>, excludes: seq<string>, glob: GlobOracle)
    requires forall k :: 0 <= k < |srcs| ==> glob(srcs[k], excludes) == Some([])
    ensures Resolve(srcs, excludes, glob) == Resolved([], [])
    decreases |srcs|
  {
    if srcs != [] {
      var init := srcs[..|srcs| - 1];
      assert forall k :: 0 <= k < |init| ==> init[k] == srcs[k];
      ResolveNoMatches(init, excludes, glob);
    }
  }

  /** The `for _, src := range Srcs` loop of both `GenerateBuildActions`:
      globs every pattern, collects the matches, reports every failure, and
      tells whether any pattern failed. It appends no action. */
  method GlobSrcs(ctx: ModuleContext, srcs: seq<string>, excludes: seq<string>)
    returns (inputs: seq<string>, inputErrors: bool)
    modifies ctx`errors, ctx`globCalls
    ensures inputs == Resolve(srcs, excludes, ctx.glob).matches
    ensures inputErrors <==> Resolve(srcs, excludes, ctx.glob).failed != []
    ensures ctx.errors == old(ctx.errors) + SrcsErrors(Resolve(srcs, excludes, ctx.glob).failed)
    ensures ctx.globCalls == old(ctx.globCalls) + GlobCalls(srcs, excludes)
  {
    inputs, inputErrors := [], false;
    for i := 0 to |srcs|
      invariant inputs == Resolve(srcs[..i], excludes, ctx.glob).matches
      invariant inputErrors <==> Resolve(srcs[..i], excludes, ctx.glob).failed != []
      invariant ctx.errors == old(ctx.errors) + SrcsErrors(Resolve(srcs[..i], excludes, ctx.glob).failed)
      invariant ctx.globCalls == old(ctx.globCalls) + GlobCalls(srcs[..i], excludes)
    {
      var src := srcs[i];
      assert srcs[..i + 1][..i] == srcs[..i];
      var matches := ctx.GlobWithDeps(src, excludes);
      match matches {
        case Some(ms) =>
          inputs := inputs + ms;
        case None =>
          ctx.PropertyErrorf("srcs", CannotResolve(src));
          inputErrors := true;
      }
    }
    assert srcs[..|srcs|] == srcs;
  }
}
