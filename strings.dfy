/** The few operations of Go's `strings` package that the module types use:
    `strings.Join` (the archive rule's `inputFiles` argument and, inside
    `Paths.Join`, the `/` separator), its inverse `strings.Split` on a
    one-character separator, and the suffix test that stands in for the
    `.*_test\.go$` regular expression. */
module Strings {

  /** `strings.HasSuffix(s, suffix)`. */
  predicate HasSuffix(s: string, suffix: string) {
    |suffix| <= |s| && s[|s| - |suffix|..] == suffix
  }

  /** The summed length of all elements. */
  function TotalLength(elems: seq<string>): nat {
    if elems == [] then 0 else |elems[0]| + TotalLength(elems[1..])
  }

  /** `strings.Join(elems, sep)`: the elements with `sep` between neighbours,
      and the empty string for an empty (or nil) list. */
  function Join(elems: seq<string>, sep: string): (s: string)
    ensures elems == [] ==> s == ""
    ensures elems != [] ==> |elems[0]| <= |s| && s[..|elems[0]|] == elems[0]
  {
    if |elems| == 0 then ""
    else if |elems| == 1 then elems[0]
    else elems[0] + sep + Join(elems[1..], sep)
  }

  /** The joined string holds every element and one separator between each
      pair of neighbours, and nothing else. */
  lemma {:induction false} JoinLength(elems: seq<string>, sep: string)
    requires elems != []
    ensures |Join(elems, sep)| + |sep| == TotalLength(elems) + |elems| * |sep|
  {
    if |elems| > 1 {
      JoinLength(elems[1..], sep);
      assert |elems| * |sep| == |sep| + (|elems| - 1) * |sep|;
    }
  }

  /** Whether character `c` occurs in `s`. */
  predicate Contains(s: string, c: char) {
    exists i :: 0 <= i < |s| && s[i] == c
  }

  /** The index of the first `c` in `s`. */
  function IndexOf(s: string, c: char): (i: nat)
    requires Contains(s, c)
    ensures i < |s| && s[i] == c
    ensures forall k :: 0 <= k < i ==> s[k] != c
  {
    if s[0] == c then 0
    else
      assert Contains(s[1..], c) by {
        var j :| 0 <= j < |s| && s[j] == c;
        assert s[1..][j - 1] == c;
      }
      1 + IndexOf(s[1..], c)
  }

  /** `strings.Split(s, string(c))`: the pieces of `s` between occurrences of `c`.
      Like Go's, it yields `[""]` for the empty string and one piece more than
      there are separators. */
  function Split(s: string, c: char): (parts: seq<string>)
    ensures |parts| >= 1
    ensures forall k :: 0 <= k < |parts| ==> !Contains(parts[k], c)
    decreases |s|
  {
    if !Contains(s, c) then [s]
    else
      var i := IndexOf(s, c);
      assert !Contains(s[..i], c) by {
        forall k | 0 <= k < i ensures s[..i][k] != c { }
      }
      [s[..i]] + Split(s[i + 1..], c)
  }

  /** `IndexOf` finds the first separator and no other. */
  lemma IndexOfIsFirst(s: string, c: char, k: nat)
    requires k < |s| && s[k] == c
    requires forall j :: 0 <= j < k ==> s[j] != c
    ensures Contains(s, c) && IndexOf(s, c) == k
  {
  }

  /** Splitting a join gives back the list, as long as no element holds the
      separator: the list a `strings.Join` argument carries is recoverable. */
  lemma {:induction false} SplitJoin(elems: seq<string>, c: char)
    requires elems != []
    requires forall k :: 0 <= k < |elems| ==> !Contains(elems[k], c)
    ensures Split(Join(elems, [c]), c) == elems
  {
    if |elems| > 1 {
      var tail := elems[1..];
      SplitAfterFirst(elems[0], c, Join(tail, [c]));
      SplitJoin(tail, c);
    }
  }

  /** A string that starts with a separator-free piece and a separator splits
      into that piece followed by the split of the rest. */
  lemma SplitAfterFirst(first: string, c: char, rest: string)
    requires !Contains(first, c)
    ensures Split(first + [c] + rest, c) == [first] + Split(rest, c)
  {
    var s := first + [c] + rest;
    forall j | 0 <= j < |first| ensures s[j] != c {
      assert s[j] == first[j];
    }
    IndexOfIsFirst(s, c, |first|);
    assert s[..|first|] == first;
    assert s[|first| + 1..] == rest;
  }

  /** Joining a split gives back the string, for every string. */
  lemma {:induction false} JoinSplit(s: string, c: char)
    ensures Join(Split(s, c), [c]) == s
    decreases |s|
  {
    if Contains(s, c) {
      var i := IndexOf(s, c);
      var tail := Split(s[i + 1..], c);
      JoinSplit(s[i + 1..], c);
      var parts := Split(s, c);
      assert parts == [s[..i]] + tail;
      assert parts[1..] == tail;
      assert Join(parts, [c]) == s[..i] + [c] + Join(tail, [c]);
      assert s == s[..i] + [c] + s[i + 1..];
    }
  }
}
