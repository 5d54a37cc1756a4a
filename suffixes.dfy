/** Suffix-coded channel names, shared by the two tag-derivation schemes of the event bus:
    a derived name is the base tag followed by a fixed suffix, and a scheme is sound when no
    suffix ends another one. */
module Suffixes {

  /** `a` is a (not necessarily proper) suffix of `b`. */
  predicate EndsWith(b: string, a: string) {
    |a| <= |b| && b[|b| - |a|..] == a
  }

  /** If two derived names are equal, the shorter suffix ends the longer one, and equal-length
      suffixes force equal bases and equal suffixes. */
  lemma {:induction false} SplitEqual(t1: string, s1: string, t2: string, s2: string)
    requires t1 + s1 == t2 + s2
    ensures |s1| <= |s2| ==> EndsWith(s2, s1)
    ensures |s2| <= |s1| ==> EndsWith(s1, s2)
    ensures |s1| == |s2| ==> t1 == t2 && s1 == s2
  {
    var w := t1 + s1;
    assert w[|t1|..] == s1 && w[..|t1|] == t1;
    assert w[|t2|..] == s2 && w[..|t2|] == t2;
    if |s1| <= |s2| {
      assert s2[|s2| - |s1|..] == w[|w| - |s1|..];
    }
    if |s2| <= |s1| {
      assert s1[|s1| - |s2|..] == w[|w| - |s2|..];
    }
  }
}
