/** Sequence helpers shared by both engines: sums, truncation, first arg-max, label counts. */
module Seqs {

  function Min(a: int, b: int): int
  {
    if a <= b then a else b
  }

  function Abs(x: real): real
  {
    if x < 0.0 then -x else x
  }

  /** Python's `s[:n]`: the first `n` elements, or all of `s` when it is shorter. */
  function Take<T>(s: seq<T>, n: nat): seq<T>
  {
    if |s| <= n then s else s[..n]
  }

  function Sum(s: seq<real>): real
  {
    if s == [] then 0.0 else s[0] + Sum(s[1..])
  }

  lemma {:induction false} SumAppend(a: seq<real>, b: seq<real>)
    ensures Sum(a + b) == Sum(a) + Sum(b)
  {
    if a == [] {
      assert a + b == b;
    } else {
      assert (a + b)[1..] == a[1..] + b;
      SumAppend(a[1..], b);
    }
  }

  /**
   * The index Python's `max` (and `xs.index(max(xs))`) picks: a maximal element,
   * and the first one among equals, because a later element replaces the current
   * maximum only when it is strictly greater.
   */
  function FirstArgMax(xs: seq<real>): (k: nat)
    requires |xs| > 0
    ensures k < |xs|
    ensures forall j :: 0 <= j < |xs| ==> xs[j] <= xs[k]
    ensures forall j :: 0 <= j < k ==> xs[j] < xs[k]
    decreases |xs|
  {
    if |xs| == 1 then 0
    else
      var k := FirstArgMax(xs[..|xs| - 1]);
      if xs[|xs| - 1] > xs[k] then |xs| - 1 else k
  }

  /** The number of positions whose label is `i` (the size of cluster `i`). */
  function Count(labels: seq<nat>, i: nat): nat
  {
    if labels == [] then 0
    else (if labels[0] == i then 1 else 0) + Count(labels[1..], i)
  }

  /** The sizes of clusters `0 .. k-1` added up. */
  function SumCounts(labels: seq<nat>, k: nat): nat
  {
    if k == 0 then 0 else SumCounts(labels, k - 1) + Count(labels, k - 1)
  }

  lemma {:induction false} SumCountsUncons(labels: seq<nat>, k: nat)
    requires labels != []
    ensures SumCounts(labels, k) == (if labels[0] < k then 1 else 0) + SumCounts(labels[1..], k)
  {
    if k > 0 {
      SumCountsUncons(labels, k - 1);
    }
  }

  /** When every label is below `k`, clusters `0 .. k-1` partition the labelled rows. */
  lemma {:induction false} CountsPartition(labels: seq<nat>, k: nat)
    requires forall p :: 0 <= p < |labels| ==> labels[p] < k
    ensures SumCounts(labels, k) == |labels|
  {
    if labels == [] {
      ZeroCounts(k);
    } else {
      SumCountsUncons(labels, k);
      CountsPartition(labels[1..], k);
    }
  }

  lemma {:induction false} ZeroCounts(k: nat)
    ensures SumCounts([], k) == 0
  {
    if k > 0 {
      ZeroCounts(k - 1);
    }
  }

  // Arithmetic steps kept out of the inductive proofs, where they are costly.

  lemma Distribute(a: real, b: real, u: real)
    ensures a * u + b * u == (a + b) * u
  {
  }

  lemma SquareNonNegative(e: real)
    ensures e * e >= 0.0
  {
  }

  lemma QuotientNonNegative(a: real, n: real)
    requires a >= 0.0 && n > 0.0
    ensures a / n >= 0.0
  {
  }

  /** `size / total * 100`, the share of one cluster in percent. */
  function Percentage(size: nat, total: nat): real
  {
    if total == 0 then 0.0 else size as real / total as real * 100.0
  }

  /** The percentages of clusters `0 .. k-1` added up. */
  function PercentSum(labels: seq<nat>, k: nat, total: nat): real
  {
    if k == 0 then 0.0 else PercentSum(labels, k - 1, total) + Percentage(Count(labels, k - 1), total)
  }

  /** Percentages of disjoint parts add up to the percentage of their union. */
  lemma PercentageAdds(a: nat, c: nat, total: nat)
    ensures Percentage(a, total) + Percentage(c, total) == Percentage(a + c, total)
  {
    if total > 0 {
      var t := total as real;
      assert (a + c) as real == a as real + c as real;
      Distribute(a as real / t, c as real / t, 100.0);
      assert a as real / t + c as real / t == (a as real + c as real) / t;
    }
  }

  lemma {:induction false} PercentSumIsScaledCount(labels: seq<nat>, k: nat, total: nat)
    ensures PercentSum(labels, k, total) == Percentage(SumCounts(labels, k), total)
  {
    if k > 0 {
      PercentSumIsScaledCount(labels, k - 1, total);
      PercentageAdds(SumCounts(labels, k - 1), Count(labels, k - 1), total);
    } else {
      assert Percentage(0, total) == 0.0;
    }
  }

  /** Cluster percentages sum to 100 when every row carries one of the `k` labels. */
  lemma PercentagesSumTo100(labels: seq<nat>, k: nat)
    requires |labels| > 0
    requires forall p :: 0 <= p < |labels| ==> labels[p] < k
    ensures PercentSum(labels, k, |labels|) == 100.0
  {
    CountsPartition(labels, k);
    PercentSumIsScaledCount(labels, k, |labels|);
    WholeIsHundred(|labels|);
  }

  lemma WholeIsHundred(n: nat)
    requires n > 0
    ensures Percentage(n, n) == 100.0
  {
    var x := n as real;
    assert x / x == 1.0;
  }
}
