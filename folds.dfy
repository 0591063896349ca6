/** Sums of a per-element quantity over a sequence: the shape of SQL's SUM and
    COUNT and of the accumulation loops of the chart helpers. */
module Folds {

  /** The sum of `f` over `xs`, folded from the last element backwards so that a
      loop over a growing prefix `xs[..i]` extends it by exactly one term. */
  function SumBy<T>(xs: seq<T>, f: T -> int): int
    decreases |xs|
  {
    if xs == [] then 0 else SumBy(xs[..|xs| - 1], f) + f(xs[|xs| - 1])
  }

  /** Summing over a concatenation is summing over the parts. */
  lemma {:induction false} SumByAppend<T>(xs: seq<T>, ys: seq<T>, f: T -> int)
    ensures SumBy(xs + ys, f) == SumBy(xs, f) + SumBy(ys, f)
    decreases |ys|
  {
    if ys == [] {
      assert xs + ys == xs;
    } else {
      var n := |ys| - 1;
      assert (xs + ys)[..|xs + ys| - 1] == xs + ys[..n];
      SumByAppend(xs, ys[..n], f);
    }
  }

  /** The sum seen from the front: first element plus the rest. */
  lemma SumByCons<T>(x: T, xs: seq<T>, f: T -> int)
    ensures SumBy([x] + xs, f) == f(x) + SumBy(xs, f)
  {
    SumByAppend([x], xs, f);
    assert [x][..0] == [];
  }

  /** A sum does not depend on the order of its terms: sequences with the same
      elements (as a multiset) have the same sum. */
  lemma {:induction false} SumByPermutation<T>(xs: seq<T>, ys: seq<T>, f: T -> int)
    requires multiset(xs) == multiset(ys)
    ensures SumBy(xs, f) == SumBy(ys, f)
    decreases |xs|
  {
    if xs == [] {
      assert |multiset(ys)| == 0;
      assert ys == [];
    } else {
      var n := |xs| - 1;
      var x := xs[n];
      assert xs == xs[..n] + [x];
      assert x in multiset(ys) by { assert x in multiset(xs); }
      var j :| 0 <= j < |ys| && ys[j] == x;
      var rest := ys[..j] + ys[j + 1..];
      assert ys == ys[..j] + [x] + ys[j + 1..];
      assert multiset(rest) == multiset(ys) - multiset{x};
      assert multiset(xs[..n]) == multiset(xs) - multiset{x};
      SumByPermutation(xs[..n], rest, f);
      SumByAppend(ys[..j] + [x], ys[j + 1..], f);
      SumByAppend(ys[..j], [x], f);
      SumByAppend(ys[..j], ys[j + 1..], f);
      assert [x][..0] == [];
    }
  }

  /** Pointwise smaller terms give a smaller sum. */
  lemma {:induction false} SumByMonotone<T>(xs: seq<T>, f: T -> int, g: T -> int)
    requires forall i :: 0 <= i < |xs| ==> f(xs[i]) <= g(xs[i])
    ensures SumBy(xs, f) <= SumBy(xs, g)
    decreases |xs|
  {
    if xs != [] {
      SumByMonotone(xs[..|xs| - 1], f, g);
    }
  }

  /** Two sequences that agree term by term under their own quantities have
      equal sums. */
  lemma {:induction false} SumByMapped<A, B>(xs: seq<A>, f: A -> int, ys: seq<B>, g: B -> int)
    requires |xs| == |ys|
    requires forall i :: 0 <= i < |xs| ==> f(xs[i]) == g(ys[i])
    ensures SumBy(xs, f) == SumBy(ys, g)
    decreases |xs|
  {
    if xs != [] {
      var n := |xs| - 1;
      SumByMapped(xs[..n], f, ys[..n], g);
    }
  }

}
