/**
 * Sequence helpers shared by the admin list views: JavaScript's
 * `Array.prototype.filter` and the order-preserving subsequence relation
 * that a filter result always stands in to its input.
 */
module Seqs {

  /** `a` can be obtained from `b` by deleting elements, keeping the order of the rest. */
  predicate IsSubsequence<T(==,!new)>(a: seq<T>, b: seq<T>)
  {
    if a == [] then true
    else if b == [] then false
    else (a[0] == b[0] && IsSubsequence(a[1..], b[1..])) || IsSubsequence(a, b[1..])
  }

  /**
   * `xs.filter(p)`: the elements of `xs` that satisfy `p`, in their order,
   * each kept exactly as often as it occurs in `xs`.
   */
  function Filter<T(==,!new)>(p: T -> bool, xs: seq<T>): (r: seq<T>)
    ensures |r| <= |xs|
    ensures forall i :: 0 <= i < |r| ==> p(r[i])
    ensures IsSubsequence(r, xs)
    ensures (forall i :: 0 <= i < |xs| ==> p(xs[i])) ==> r == xs
  {
    if xs == [] then []
    else
      var rest := Filter(p, xs[1..]);
      assert xs == [xs[0]] + xs[1..];
      if p(xs[0]) then [xs[0]] + rest else rest
  }

  /**
   * A filter keeps every element that satisfies `p` exactly as often as `xs`
   * holds it and drops every other: with it, `x in r` holds iff `x in xs && p(x)`.
   */
  lemma {:induction false} FilterCounts<T(!new)>(p: T -> bool, xs: seq<T>)
    ensures forall x :: multiset(Filter(p, xs))[x] == if p(x) then multiset(xs)[x] else 0
    ensures forall x :: x in Filter(p, xs) <==> x in xs && p(x)
  {
    if xs != [] {
      FilterCounts(p, xs[1..]);
      assert xs == [xs[0]] + xs[1..];
    }
  }

  /** Two predicates that agree on every element of `xs` filter it alike. */
  lemma {:induction false} FilterCongruent<T(!new)>(p: T -> bool, q: T -> bool, xs: seq<T>)
    requires forall i :: 0 <= i < |xs| ==> p(xs[i]) == q(xs[i])
    ensures Filter(p, xs) == Filter(q, xs)
  {
    if xs != [] {
      FilterCongruent(p, q, xs[1..]);
    }
  }
}
