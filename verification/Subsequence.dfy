/** Order-preserving subsequences. */
module Subsequence {
  ghost predicate IsSubsequence<T>(a: seq<T>, b: seq<T>)
    decreases |b|
  {
    a == []
    || (b != [] && (IsSubsequence(a, b[..|b| - 1])
                    || (a[|a| - 1] == b[|b| - 1] && IsSubsequence(a[..|a| - 1], b[..|b| - 1]))))
  }

  /** The longer sequence may take one more element, and the shorter may or may not follow. */
  lemma Extend<T>(a: seq<T>, b: seq<T>, x: T)
    requires IsSubsequence(a, b)
    ensures IsSubsequence(a, b + [x]) && IsSubsequence(a + [x], b + [x])
  {
    var b' := b + [x];
    assert b'[..|b'| - 1] == b;
    assert (a + [x])[..|a|] == a;
  }

  lemma {:induction false} Reflexive<T>(a: seq<T>)
    ensures IsSubsequence(a, a)
    decreases |a|
  {
    if a != [] {
      Reflexive(a[..|a| - 1]);
    }
  }

  lemma {:induction false} Transitive<T>(a: seq<T>, b: seq<T>, c: seq<T>)
    requires IsSubsequence(a, b) && IsSubsequence(b, c)
    ensures IsSubsequence(a, c)
    decreases |b| + |c|
  {
    if a != [] {
      var c0, b0 := c[..|c| - 1], b[..|b| - 1];
      if IsSubsequence(b, c0) {
        Transitive(a, b, c0);
      } else if IsSubsequence(a, b0) {
        Transitive(a, b0, c0);
      } else {
        Transitive(a[..|a| - 1], b0, c0);
      }
    }
  }
}
