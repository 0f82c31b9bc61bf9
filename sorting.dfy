/**
 * Python's `list.sort(key=k, reverse=True)`: a stable sort by descending key.
 * Elements with equal keys keep their original relative order (Python keeps
 * sorts stable under `reverse=True`). Modelled as an insertion sort on values.
 */
module Sorting {
  import opened Seqs

  predicate SortedDesc<T>(s: seq<T>, key: T -> real)
  {
    forall a, b :: 0 <= a < b < |s| ==> key(s[a]) >= key(s[b])
  }

  /** Places `x` after every element of `s` whose key is at least `key(x)`. */
  function Insert<T>(x: T, s: seq<T>, key: T -> real): seq<T>
  {
    if s == [] || key(s[0]) < key(x) then [x] + s else [s[0]] + Insert(x, s[1..], key)
  }

  /** Stable sort by descending key: inserts the elements one by one, in input order. */
  function SortDesc<T>(s: seq<T>, key: T -> real): seq<T>
  {
    if s == [] then [] else Insert(s[|s| - 1], SortDesc(s[..|s| - 1], key), key)
  }

  /** The elements of `s` whose key is `v`, in the order they appear in `s`. */
  function WithKey<T>(s: seq<T>, key: T -> real, v: real): seq<T>
  {
    if s == [] then [] else (if key(s[0]) == v then [s[0]] else []) + WithKey(s[1..], key, v)
  }

  lemma {:induction false} WithKeyAppend<T>(a: seq<T>, b: seq<T>, key: T -> real, v: real)
    ensures WithKey(a + b, key, v) == WithKey(a, key, v) + WithKey(b, key, v)
  {
    if a == [] {
      assert a + b == b;
    } else {
      var head := if key(a[0]) == v then [a[0]] else [];
      assert (a + b)[0] == a[0];
      assert (a + b)[1..] == a[1..] + b;
      WithKeyAppend(a[1..], b, key, v);
      assert WithKey(a + b, key, v) == head + (WithKey(a[1..], key, v) + WithKey(b, key, v));
      assert WithKey(a, key, v) == head + WithKey(a[1..], key, v);
    }
  }

  lemma {:induction false} WithKeyNone<T>(s: seq<T>, key: T -> real, v: real)
    requires forall a :: 0 <= a < |s| ==> key(s[a]) < v
    ensures WithKey(s, key, v) == []
  {
    if s != [] {
      WithKeyNone(s[1..], key, v);
    }
  }

  lemma {:induction false} InsertPermutes<T>(x: T, s: seq<T>, key: T -> real)
    ensures multiset(Insert(x, s, key)) == multiset(s) + multiset{x}
    ensures |Insert(x, s, key)| == |s| + 1
  {
    if s != [] && key(s[0]) >= key(x) {
      InsertPermutes(x, s[1..], key);
      assert s == [s[0]] + s[1..];
    }
  }

  lemma {:induction false} InsertSorted<T>(x: T, s: seq<T>, key: T -> real)
    requires SortedDesc(s, key)
    ensures SortedDesc(Insert(x, s, key), key)
  {
    if s != [] && key(s[0]) >= key(x) {
      InsertSorted(x, s[1..], key);
      InsertPermutes(x, s[1..], key);
      var rest := Insert(x, s[1..], key);
      forall b | 0 <= b < |rest| ensures key(s[0]) >= key(rest[b]) {
        assert rest[b] in multiset(rest);
        assert rest[b] in multiset(s[1..]) || rest[b] == x;
        if rest[b] != x {
          var c :| 0 <= c < |s[1..]| && s[1..][c] == rest[b];
          assert s[c + 1] == rest[b];
        }
      }
    } else if s != [] {
      forall b | 0 <= b < |s| ensures key(x) >= key(s[b]) {
        assert key(s[0]) >= key(s[b]) || b == 0;
      }
    }
  }

  lemma {:induction false} InsertStable<T>(x: T, s: seq<T>, key: T -> real, v: real)
    requires SortedDesc(s, key)
    ensures WithKey(Insert(x, s, key), key, v) == WithKey(s, key, v) + (if key(x) == v then [x] else [])
  {
    if s == [] || key(s[0]) < key(x) {
      if key(x) == v {
        forall a | 0 <= a < |s| ensures key(s[a]) < v {
          assert key(s[0]) >= key(s[a]) || a == 0;
        }
        WithKeyNone(s, key, v);
      }
      assert ([x] + s)[1..] == s;
    } else {
      InsertStable(x, s[1..], key, v);
      assert ([s[0]] + Insert(x, s[1..], key))[1..] == Insert(x, s[1..], key);
    }
  }

  /** The sort returns a permutation of its input. */
  lemma {:induction false} SortDescPermutes<T>(s: seq<T>, key: T -> real)
    ensures multiset(SortDesc(s, key)) == multiset(s)
    ensures |SortDesc(s, key)| == |s|
  {
    if s != [] {
      SortDescPermutes(s[..|s| - 1], key);
      InsertPermutes(s[|s| - 1], SortDesc(s[..|s| - 1], key), key);
      assert s == s[..|s| - 1] + [s[|s| - 1]];
    }
  }

  /** The sort returns its input in descending order of key. */
  lemma {:induction false} SortDescSorted<T>(s: seq<T>, key: T -> real)
    ensures SortedDesc(SortDesc(s, key), key)
  {
    if s != [] {
      SortDescSorted(s[..|s| - 1], key);
      InsertSorted(s[|s| - 1], SortDesc(s[..|s| - 1], key), key);
    }
  }

  /** Stability: among elements with the same key, the input order is kept. */
  lemma {:induction false} SortDescStable<T>(s: seq<T>, key: T -> real, v: real)
    ensures WithKey(SortDesc(s, key), key, v) == WithKey(s, key, v)
  {
    if s != [] {
      var init, last := s[..|s| - 1], s[|s| - 1];
      SortDescStable(init, key, v);
      SortDescSorted(init, key);
      InsertStable(last, SortDesc(init, key), key, v);
      assert s == init + [last];
      WithKeyAppend(init, [last], key, v);
    }
  }

  /**
   * `Take(SortDesc(s, key), n)`: the first n elements of the sorted list are in descending
   * order, come from `s`, and none of them has a smaller key than any element
   * that was cut off.
   */
  lemma TopKeepsLargest<T>(s: seq<T>, key: T -> real, n: nat)
    ensures var sorted := SortDesc(s, key);
            var top := Take(sorted, n);
            && |top| == (if |s| <= n then |s| else n)
            && SortedDesc(top, key)
            && multiset(top) <= multiset(s)
            && forall a, b :: 0 <= a < |top| <= b < |sorted| ==> key(sorted[a]) >= key(sorted[b])
  {
    var sorted := SortDesc(s, key);
    SortDescPermutes(s, key);
    SortDescSorted(s, key);
    if |sorted| > n {
      var top := sorted[..n];
      assert Take(sorted, n) == top;
      assert sorted == top + sorted[n..];
      assert multiset(sorted) == multiset(top) + multiset(sorted[n..]);
      forall a, b | 0 <= a < b < |top| ensures key(top[a]) >= key(top[b]) {
        assert top[a] == sorted[a] && top[b] == sorted[b];
      }
    } else {
      assert Take(sorted, n) == sorted;
    }
  }
}
