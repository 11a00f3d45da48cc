/** Generic facts about sequences shared by the string and dictionary models. */
module Sequences {

  /** Index of the first occurrence of `x` in `s`: `s.index(x)`. */
  function FirstIndex<T(==)>(s: seq<T>, x: T): (i: nat)
    requires x in s
    ensures i < |s| && s[i] == x && x !in s[..i]
  {
    if s[0] == x then 0
    else
      var j := FirstIndex(s[1..], x);
      assert s[..j + 1] == [s[0]] + s[1..][..j];
      j + 1
  }

  /** The first occurrence is unchanged by appending. */
  lemma FirstIndexPrefix<T>(a: seq<T>, b: seq<T>, x: T)
    requires x in a
    ensures x in a + b && FirstIndex(a + b, x) == FirstIndex(a, x)
  {
    var f := FirstIndex(a, x);
    assert (a + b)[f] == x;
    assert (a + b)[..f] == a[..f];
  }

  /** An element new to `a` occurs first right after `a`. */
  lemma FirstIndexAppendNew<T>(a: seq<T>, x: T)
    requires x !in a
    ensures x in a + [x] && FirstIndex(a + [x], x) == |a|
  {
    assert (a + [x])[|a|] == x;
    assert (a + [x])[..|a|] == a;
  }

  predicate Distinct<T(==)>(s: seq<T>)
  {
    forall i, j :: 0 <= i < j < |s| ==> s[i] != s[j]
  }

  /** A non-empty sequence is its front followed by its last element. */
  lemma FrontLast<T>(s: seq<T>)
    requires |s| > 0
    ensures s[..|s| - 1] + [s[|s| - 1]] == s
  {
  }
}
