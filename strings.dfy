/** The few java.lang.String operations the processor relies on, over `seq<char>`. */
module Strings {

  /** Java's `String.lastIndexOf(char)`: the index of the last occurrence of `c`, or -1. */
  function LastIndexOf(s: string, c: char): (r: int)
    ensures -1 <= r < |s|
    ensures r >= 0 ==> s[r] == c
    ensures forall j :: r < j < |s| ==> s[j] != c
  {
    if |s| == 0 then -1
    else if s[|s| - 1] == c then |s| - 1
    else LastIndexOf(s[..|s| - 1], c)
  }

  /** Java's `String.startsWith(String)`. */
  predicate StartsWith(s: string, prefix: string) {
    |prefix| <= |s| && s[..|prefix|] == prefix
  }

  /** Java's `String.endsWith(String)`. */
  predicate EndsWith(s: string, suffix: string) {
    |suffix| <= |s| && s[|s| - |suffix|..] == suffix
  }

  /** The last occurrence is determined by the character and what follows it. */
  lemma LastIndexOfIs(s: string, c: char, i: int)
    requires 0 <= i < |s| && s[i] == c
    requires forall j :: i < j < |s| ==> s[j] != c
    ensures LastIndexOf(s, c) == i
  {
  }

  /** Joining two strings with `c`, where the right one holds no `c`, puts the last `c` at the seam. */
  lemma LastIndexOfJoin(s: string, x: string, c: char, y: string)
    requires s == x + [c] + y
    requires c !in y
    ensures LastIndexOf(s, c) == |x|
  {
    forall j | |x| < j < |s| ensures s[j] != c {
      assert s[j] == y[j - |x| - 1];
    }
    LastIndexOfIs(s, c, |x|);
  }

  /** A concatenation starts with its left operand. */
  lemma StartsWithConcat(s: string, prefix: string, rest: string)
    requires s == prefix + rest
    ensures StartsWith(s, prefix)
  {
    assert s[..|prefix|] == prefix;
  }

  /** A prefix of a prefix is a prefix. */
  lemma StartsWithTrans(s: string, p: string, q: string)
    requires StartsWith(s, p) && StartsWith(p, q)
    ensures StartsWith(s, q)
  {
    assert s[..|q|] == s[..|p|][..|q|];
  }
}
