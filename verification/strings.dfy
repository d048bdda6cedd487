/** String helpers the path resolver is built on: prefixes, trailing matches,
    the last occurrence of a character, and the segment view of a path. */
module Strings {

  /** `File.separator` on Android. */
  const SeparatorChar: char := '/'
  const Separator: string := [SeparatorChar]

  predicate IsPrefix(p: string, s: string) {
    |p| <= |s| && s[..|p|] == p
  }

  /** Exact, case-sensitive match of `suffix` at the end of `s`. */
  predicate EndsWith(s: string, suffix: string) {
    |suffix| <= |s| && s[|s| - |suffix|..] == suffix
  }

  /** Two trailing matches of one string nest: the shorter ends the longer. */
  lemma EndsWithNest(s: string, a: string, b: string)
    requires EndsWith(s, a) && EndsWith(s, b) && |a| <= |b|
    ensures EndsWith(b, a)
  {
  }

  /** `String.lastIndexOf(char)`: the index of the last `c` in `s`, or -1. */
  function LastIndexOf(s: string, c: char): (r: int)
    ensures -1 <= r < |s|
    ensures r == -1 <==> c !in s
    ensures 0 <= r ==> s[r] == c && c !in s[r + 1..]
  {
    if |s| == 0 then -1
    else if s[|s| - 1] == c then |s| - 1
    else
      assert s[..|s| - 1] + [s[|s| - 1]] == s;
      LastIndexOf(s[..|s| - 1], c)
  }

  /** When `c` occurs in the tail `b`, the last `c` of `a + b` is the last `c` of `b`. */
  lemma LastIndexOfAppend(a: string, b: string, c: char)
    requires c in b
    ensures LastIndexOf(a + b, c) == |a| + LastIndexOf(b, c)
  {
    var s := a + b;
    var k := LastIndexOf(b, c);
    var r := LastIndexOf(s, c);
    assert s[|a| + k] == c;
  }

  /** The segments of a path between separators, in order; a trailing
      separator yields a last, empty segment. */
  function Split(s: string): (r: seq<string>)
    ensures |r| >= 1
    ensures forall i :: 0 <= i < |r| ==> SeparatorChar !in r[i]
  {
    if |s| == 0 then [""]
    else if s[0] == SeparatorChar then [""] + Split(s[1..])
    else
      var t := Split(s[1..]);
      [[s[0]] + t[0]] + t[1..]
  }

  /** A string without a separator is a single segment. */
  lemma {:induction false} SplitSegment(s: string)
    requires SeparatorChar !in s
    ensures Split(s) == [s]
  {
    if |s| > 0 {
      SplitSegment(s[1..]);
      assert [s[0]] + s[1..] == s;
    }
  }

  /** Joining two strings with a separator concatenates their segments. */
  lemma {:induction false} SplitJoin(a: string, b: string)
    ensures Split(a + Separator + b) == Split(a) + Split(b)
  {
    if |a| == 0 {
      assert a + Separator + b == [SeparatorChar] + b;
      assert ([SeparatorChar] + b)[1..] == b;
    } else {
      var s := a + Separator + b;
      assert s[0] == a[0];
      assert s[1..] == a[1..] + Separator + b;
      SplitJoin(a[1..], b);
    }
  }
}
