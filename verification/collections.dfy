/** Sizes of sets and of sequences without repetition. */
module Collections {

  predicate Distinct<T(==)>(s: seq<T>) {
    forall i, j | 0 <= i < j < |s| :: s[i] != s[j]
  }

  function Set<T(==)>(s: seq<T>): set<T> {
    set x | x in s
  }

  lemma {:induction false} DistinctSize<T>(s: seq<T>)
    requires Distinct(s)
    ensures |Set(s)| == |s|
    decreases |s|
  {
    if s != [] {
      var n := |s| - 1;
      DistinctSize(s[..n]);
      assert s == s[..n] + [s[n]];
      assert Set(s) == Set(s[..n]) + {s[n]};
      assert s[n] !in s[..n];
    }
  }

  lemma SubsetSize<T>(a: set<T>, b: set<T>)
    requires a <= b
    ensures |a| <= |b| && (|a| == |b| ==> a == b)
  {
    assert b == a + (b - a);
  }

  /** A sequence has no more different elements than elements. */
  lemma {:induction false} SetSize<T>(s: seq<T>)
    ensures |Set(s)| <= |s|
    decreases |s|
  {
    if s != [] {
      var n := |s| - 1;
      SetSize(s[..n]);
      assert s == s[..n] + [s[n]];
      assert Set(s) == Set(s[..n]) + {s[n]};
    }
  }
}
