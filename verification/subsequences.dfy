/** Order-preserving selection: `a` is obtained from `b` by deleting
    elements, keeping the rest in their original relative order. This is
    what a chain of `Array.prototype.filter` calls produces. */
module Subsequences {

  predicate IsSubsequence<T(==)>(a: seq<T>, b: seq<T>)
    decreases |b|
  {
    if a == [] then true
    else if b == [] then false
    else (a[0] == b[0] && IsSubsequence(a[1..], b[1..])) || IsSubsequence(a, b[1..])
  }

  /** A subsequence is never longer than the sequence it comes from. */
  lemma {:induction false} SubsequenceNotLonger<T>(a: seq<T>, b: seq<T>)
    requires IsSubsequence(a, b)
    ensures |a| <= |b|
    decreases |b|
  {
    if a != [] {
      if a[0] == b[0] && IsSubsequence(a[1..], b[1..]) {
        SubsequenceNotLonger(a[1..], b[1..]);
      } else {
        SubsequenceNotLonger(a, b[1..]);
      }
    }
  }
}
