/** A simplified `path.Join` of Go's `path` package, enough for the output and
    vendor paths the module types compute: empty elements are ignored, `.`
    elements are dropped (what `path.Clean` does to them), and the rest are
    joined with `/`. */
module Paths {
  import Strings

  /** The elements `path.Join` keeps: neither empty nor `.`. */
  function Segments(elems: seq<string>): (segs: seq<string>)
    ensures forall k :: 0 <= k < |segs| ==> segs[k] != "" && segs[k] != "."
    ensures forall x :: x in segs ==> x in elems
    ensures |segs| <= |elems|
  {
    if elems == [] then []
    else if elems[0] == "" || elems[0] == "." then Segments(elems[1..])
    else [elems[0]] + Segments(elems[1..])
  }

  /** `path.Join(elems...)`: the empty string when every element is empty,
      `.` when only `.` elements remain, and otherwise the kept elements
      separated by `/`. */
  function Join(elems: seq<string>): (p: string)
    ensures p == "" <==> forall k :: 0 <= k < |elems| ==> elems[k] == ""
  {
    if forall k :: 0 <= k < |elems| ==> elems[k] == "" then ""
    else if Segments(elems) == [] then "."
    else Strings.Join(Segments(elems), "/")
  }

  /** Three proper elements are joined with a `/` between each pair. */
  lemma JoinThree(a: string, b: string, c: string)
    requires a != "" && a != "." && b != "" && b != "." && c != "" && c != "."
    ensures Join([a, b, c]) == a + "/" + b + "/" + c
  {
    assert [a, b, c][1..] == [b, c];
    assert [b, c][1..] == [c];
    assert [c][1..] == [];
    assert Segments([c]) == [c];
    assert Segments([b, c]) == [b, c];
    assert Segments([a, b, c]) == [a, b, c];
    assert [a, b, c][0] != "";
    assert Strings.Join([c], "/") == c;
    assert Strings.Join([b, c], "/") == b + "/" + c;
    assert Strings.Join([a, b, c], "/") == a + "/" + (b + "/" + c);
  }

  /** A leading `.` disappears: `path.Join(".", b)` is `b`. */
  lemma JoinDot(b: string)
    requires b != "" && b != "."
    ensures Join([".", b]) == b
  {
    assert [".", b][1..] == [b];
    assert Segments([".", b]) == [b];
    assert [".", b][1] != "";
  }

  /** The partner of `Join`: splitting a joined path at `/` gives back the
      kept elements, when no element holds a `/` itself. */
  lemma JoinSplitsIntoSegments(elems: seq<string>)
    requires forall k :: 0 <= k < |elems| ==> !Strings.Contains(elems[k], '/')
    requires Segments(elems) != []
    ensures Strings.Split(Join(elems), '/') == Segments(elems)
  {
    var segs := Segments(elems);
    assert !(forall k :: 0 <= k < |elems| ==> elems[k] == "") by {
      assert segs[0] in elems;
    }
    forall k | 0 <= k < |segs| ensures !Strings.Contains(segs[k], '/') {
      assert segs[k] in elems;
    }
    Strings.SplitJoin(segs, '/');
  }
}
