/** Order-preserving sub-sequences, used to state that a builder keeps its
    fixed key order and that a client-side filter keeps the response order. */
module Seqs {

  /** `a` occurs in `b` in order, possibly with gaps (greedy matching). */
  predicate Subsequence<T(==)>(a: seq<T>, b: seq<T>)
    decreases |b|
  {
    |a| == 0 || (|b| > 0 && if a[0] == b[0] then Subsequence(a[1..], b[1..]) else Subsequence(a, b[1..]))
  }

  predicate Distinct<T(==)>(xs: seq<T>)
  {
    forall i, j :: 0 <= i < j < |xs| ==> xs[i] != xs[j]
  }
}
