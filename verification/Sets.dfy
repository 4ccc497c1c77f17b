/** Sizes of finite sets. */
module Sets {
  /** A subset is no larger, and as large only if it is everything. */
  lemma SubsetSize<T>(small: set<T>, large: set<T>)
    requires small <= large
    ensures |small| <= |large|
    ensures |large| <= |small| ==> small == large
  {
    assert |large - small| == |large| - |small|;
    assert |large - small| == 0 ==> large - small == {};
  }
}
