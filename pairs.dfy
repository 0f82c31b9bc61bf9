/**
 * The column pairs both engines visit with the nested loop
 * `for i in range(n): for j in range(i + 1, n)`: the upper triangle of an
 * n-by-n matrix, row by row.
 */
module Pairs {
  import opened Wrappers

  datatype Pair = Pair(i: nat, j: nat)

  /** The pairs (i, i+1), (i, i+2), ..., (i, j-1): the first part of row `i`. */
  function RowPairs(i: nat, j: nat): seq<Pair>
    decreases j
  {
    if j <= i + 1 then [] else RowPairs(i, j - 1) + [Pair(i, j - 1)]
  }

  /** Rows 0 .. rows-1 of the upper triangle of an n-column matrix, in loop order. */
  function TrianglePairs(rows: nat, n: nat): seq<Pair>
  {
    if rows == 0 then [] else TrianglePairs(rows - 1, n) + RowPairs(rows - 1, n)
  }

  /** Every pair the nested loop visits, in the order it visits them. */
  function UpperTriangle(n: nat): seq<Pair>
  {
    TrianglePairs(n, n)
  }

  /** Strict lexicographic order on pairs: the order of the loops. */
  predicate Before(p: Pair, q: Pair)
  {
    p.i < q.i || (p.i == q.i && p.j < q.j)
  }

  lemma {:induction false} RowPairsMembers(i: nat, j: nat)
    ensures forall p :: p in RowPairs(i, j) <==> p.i == i && i < p.j < j
    decreases j
  {
    if j > i + 1 {
      RowPairsMembers(i, j - 1);
      assert RowPairs(i, j) == RowPairs(i, j - 1) + [Pair(i, j - 1)];
    }
  }

  lemma {:induction false} RowPairsLength(i: nat, j: nat)
    ensures |RowPairs(i, j)| == if j > i then j - i - 1 else 0
    decreases j
  {
    if j > i + 1 {
      RowPairsLength(i, j - 1);
    }
  }

  lemma {:induction false} RowPairsOrdered(i: nat, j: nat)
    ensures forall a, b :: 0 <= a < b < |RowPairs(i, j)| ==> Before(RowPairs(i, j)[a], RowPairs(i, j)[b])
    decreases j
  {
    if j > i + 1 {
      RowPairsOrdered(i, j - 1);
      RowPairsMembers(i, j - 1);
      var r := RowPairs(i, j);
      assert r == RowPairs(i, j - 1) + [Pair(i, j - 1)];
      forall a, b | 0 <= a < b < |r| ensures Before(r[a], r[b]) {
        if b == |r| - 1 {
          assert r[a] in RowPairs(i, j - 1);
        }
      }
    }
  }

  lemma {:induction false} TrianglePairsMembers(rows: nat, n: nat)
    ensures forall p :: p in TrianglePairs(rows, n) <==> p.i < rows && p.i < p.j < n
  {
    if rows > 0 {
      var prev, row := TrianglePairs(rows - 1, n), RowPairs(rows - 1, n);
      TrianglePairsMembers(rows - 1, n);
      RowPairsMembers(rows - 1, n);
      assert forall p :: p in TrianglePairs(rows, n) <==> p in prev || p in row;
    }
  }

  lemma {:induction false} TrianglePairsSize(rows: nat, n: nat)
    requires rows <= n
    ensures 2 * |TrianglePairs(rows, n)| == rows * (2 * n - rows - 1)
  {
    if rows > 0 {
      TrianglePairsSize(rows - 1, n);
      RowPairsLength(rows - 1, n);
      TriangleArithmetic(rows, n);
    }
  }

  /** Adding row `rows - 1`, of n - rows pairs, to the rows above it. */
  lemma TriangleArithmetic(rows: nat, n: nat)
    requires 0 < rows <= n
    ensures (rows - 1) * (2 * n - rows) + 2 * (n - rows) == rows * (2 * n - rows - 1)
  {
    var m := 2 * n - rows;
    assert (rows - 1) * m == rows * m - m;
    assert rows * m - m + 2 * (n - rows) == rows * m - rows;
    assert rows * m - rows == rows * (m - 1);
  }

  /** Two ordered lists, every pair of the first before every pair of the second, concatenate to an ordered list. */
  lemma ConcatOrdered(xs: seq<Pair>, ys: seq<Pair>)
    requires forall a, b :: 0 <= a < b < |xs| ==> Before(xs[a], xs[b])
    requires forall a, b :: 0 <= a < b < |ys| ==> Before(ys[a], ys[b])
    requires forall a, b :: 0 <= a < |xs| && 0 <= b < |ys| ==> Before(xs[a], ys[b])
    ensures forall a, b :: 0 <= a < b < |xs + ys| ==> Before((xs + ys)[a], (xs + ys)[b])
  {
    var t := xs + ys;
    forall a, b | 0 <= a < b < |t| ensures Before(t[a], t[b]) {
      if b < |xs| {
        assert t[a] == xs[a] && t[b] == xs[b];
      } else if a < |xs| {
        assert t[a] == xs[a] && t[b] == ys[b - |xs|];
      } else {
        assert t[a] == ys[a - |xs|] && t[b] == ys[b - |xs|];
      }
    }
  }

  lemma {:induction false} RowPairsInRow(i: nat, j: nat)
    ensures forall a :: 0 <= a < |RowPairs(i, j)| ==> RowPairs(i, j)[a].i == i
    decreases j
  {
    if j > i + 1 {
      RowPairsInRow(i, j - 1);
      assert RowPairs(i, j) == RowPairs(i, j - 1) + [Pair(i, j - 1)];
    }
  }

  lemma {:induction false} TrianglePairsAboveRow(rows: nat, n: nat)
    ensures forall a :: 0 <= a < |TrianglePairs(rows, n)| ==> TrianglePairs(rows, n)[a].i < rows
  {
    if rows > 0 {
      var prev, row := TrianglePairs(rows - 1, n), RowPairs(rows - 1, n);
      TrianglePairsAboveRow(rows - 1, n);
      RowPairsInRow(rows - 1, n);
      var t: seq<Pair> := prev + row;
      forall a | 0 <= a < |t| ensures t[a].i < rows {
        if a < |prev| {
          assert t[a] == prev[a];
        } else {
          assert t[a] == row[a - |prev|];
        }
      }
    }
  }

  lemma {:induction false} TrianglePairsOrdered(rows: nat, n: nat)
    ensures forall a, b :: 0 <= a < b < |TrianglePairs(rows, n)| ==>
              Before(TrianglePairs(rows, n)[a], TrianglePairs(rows, n)[b])
  {
    if rows > 0 {
      var prev, row := TrianglePairs(rows - 1, n), RowPairs(rows - 1, n);
      TrianglePairsOrdered(rows - 1, n);
      TrianglePairsAboveRow(rows - 1, n);
      RowPairsInRow(rows - 1, n);
      RowPairsOrdered(rows - 1, n);
      ConcatOrdered(prev, row);
    }
  }

  /**
   * The loop visits exactly the pairs i < j < n, each once (the visit order is
   * strictly increasing), n(n-1)/2 of them.
   */
  lemma UpperTriangleShape(n: nat)
    ensures forall p :: p in UpperTriangle(n) <==> p.i < p.j < n
    ensures 2 * |UpperTriangle(n)| == n * (n - 1)
    ensures forall a, b :: 0 <= a < b < |UpperTriangle(n)| ==> Before(UpperTriangle(n)[a], UpperTriangle(n)[b])
  {
    TrianglePairsMembers(n, n);
    TrianglePairsSize(n, n);
    TrianglePairsOrdered(n, n);
  }

  /** The results `f` gives for the listed pairs, in list order, skipping the pairs it declines. */
  function Collect<T>(ps: seq<Pair>, f: Pair -> Option<T>): seq<T>
  {
    if ps == [] then []
    else Collect(ps[..|ps| - 1], f) + match f(ps[|ps| - 1]) case Some(t) => [t] case None => []
  }

  /** Visiting one more pair appends its result, if any. */
  lemma CollectSnoc<T>(ps: seq<Pair>, p: Pair, f: Pair -> Option<T>)
    ensures Collect(ps + [p], f) == Collect(ps, f) + match f(p) case Some(t) => [t] case None => []
  {
    assert (ps + [p])[..|ps|] == ps;
  }

  lemma {:induction false} CollectMembers<T>(ps: seq<Pair>, f: Pair -> Option<T>)
    ensures forall t :: t in Collect(ps, f) <==> exists k :: 0 <= k < |ps| && f(ps[k]) == Some(t)
  {
    if ps != [] {
      var init := ps[..|ps| - 1];
      CollectMembers(init, f);
      forall t ensures t in Collect(ps, f) <==> exists k :: 0 <= k < |ps| && f(ps[k]) == Some(t) {
        if exists k :: 0 <= k < |ps| && f(ps[k]) == Some(t) {
          var k :| 0 <= k < |ps| && f(ps[k]) == Some(t);
          if k < |init| {
            assert init[k] == ps[k];
          }
        }
        if t in Collect(init, f) {
          var k :| 0 <= k < |init| && f(init[k]) == Some(t);
          assert ps[k] == init[k];
        }
      }
    }
  }

  /** Over the upper triangle, `Collect` holds exactly the results of the pairs i < j < n. */
  lemma CollectUpperTriangle<T>(n: nat, f: Pair -> Option<T>)
    ensures forall t :: t in Collect(UpperTriangle(n), f) <==>
              exists i, j :: 0 <= i < j < n && f(Pair(i, j)) == Some(t)
  {
    var ps := UpperTriangle(n);
    CollectMembers(ps, f);
    UpperTriangleShape(n);
    forall t ensures t in Collect(ps, f) <==> exists i, j :: 0 <= i < j < n && f(Pair(i, j)) == Some(t) {
      if exists i, j :: 0 <= i < j < n && f(Pair(i, j)) == Some(t) {
        var i, j :| 0 <= i < j < n && f(Pair(i, j)) == Some(t);
        assert Pair(i, j) in ps;
        var k :| 0 <= k < |ps| && ps[k] == Pair(i, j);
      }
      if t in Collect(ps, f) {
        var k :| 0 <= k < |ps| && f(ps[k]) == Some(t);
        assert ps[k] in ps;
        assert ps[k] == Pair(ps[k].i, ps[k].j);
      }
    }
  }

  lemma {:induction false} CollectLength<T>(ps: seq<Pair>, f: Pair -> Option<T>)
    ensures |Collect(ps, f)| <= |ps|
  {
    if ps != [] {
      CollectLength(ps[..|ps| - 1], f);
    }
  }

  /** The inner loop `for j in range(i + 1, n)`: appends the results of row `i` of the triangle. */
  method CollectRow<T>(i: nat, n: nat, f: Pair -> Option<T>, ghost visited: seq<Pair>, before: seq<T>)
    returns (results: seq<T>)
    requires i < n && before == Collect(visited, f)
    ensures results == Collect(visited + RowPairs(i, n), f)
  {
    results := before;
    assert visited + RowPairs(i, i + 1) == visited;
    for j := i + 1 to n
      invariant results == Collect(visited + RowPairs(i, j), f)
    {
      ghost var done := visited + RowPairs(i, j);
      assert visited + RowPairs(i, j + 1) == done + [Pair(i, j)];
      CollectSnoc(done, Pair(i, j), f);
      match f(Pair(i, j)) {
        case Some(t) => results := results + [t];
        case None =>
      }
    }
  }

  /**
   * The nested loop `for i in range(n): for j in range(i + 1, n)`, appending the
   * result of each visited pair that yields one.
   */
  method CollectTriangle<T>(n: nat, f: Pair -> Option<T>) returns (results: seq<T>)
    ensures results == Collect(UpperTriangle(n), f)
  {
    results := [];
    for i := 0 to n
      invariant results == Collect(TrianglePairs(i, n), f)
    {
      results := CollectRow(i, n, f, TrianglePairs(i, n), results);
    }
  }
}
