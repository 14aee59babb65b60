/** Cardinalities of sets that differ by a few elements. */
module Sets {
  lemma RemoveOne<T>(s: set<T>, x: T)
    ensures |s - {x}| == |s| - if x in s then 1 else 0
  {
  }

  lemma DisjointUnion<T>(a: set<T>, b: set<T>)
    requires a !! b
    ensures |a + b| == |a| + |b|
  {
  }

  lemma SubsetSize<T>(a: set<T>, b: set<T>)
    requires a <= b
    ensures |a| <= |b|
    ensures |b - a| == |b| - |a|
  {
  }

  /** A set no smaller than `b` that misses an element of `b` has an element outside `b`. */
  lemma SomethingOutside<T>(a: set<T>, b: set<T>, x: T)
    requires |b| <= |a| && x in b && x !in a
    ensures a - b != {}
  {
    RemoveOne(b, x);
    if a <= b - {x} {
      SubsetSize(a, b - {x});
    }
  }
}
