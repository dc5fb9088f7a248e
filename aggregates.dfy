/**
 * The list helpers the progress pages compute their summaries with:
 * `filter(...).length`, `reduce((acc, x) => acc + f(x), 0)` and
 * `Math.round(total / n)` on whole numbers.
 */
module Aggregates {
  import opened Wrappers

  /** `s.filter(keep)`: the elements that pass, in order, with their multiplicities. */
  function Filter<T(!new)>(s: seq<T>, keep: T -> bool): (r: seq<T>)
    ensures |r| <= |s|
    ensures forall x :: multiset(r)[x] == if keep(x) then multiset(s)[x] else 0
  {
    if s == [] then []
    else
      assert s == [s[0]] + s[1..];
      (if keep(s[0]) then [s[0]] else []) + Filter(s[1..], keep)
  }

  /** `s.map(f)`. */
  function MapSeq<T, K>(s: seq<T>, f: T -> K): (r: seq<K>)
    ensures |r| == |s|
    ensures forall i :: 0 <= i < |s| ==> r[i] == f(s[i])
  {
    if s == [] then [] else [f(s[0])] + MapSeq(s[1..], f)
  }

  /**
   * `s.reduce((acc, x) => acc + f(x), 0)`, adding from the front;
   * `SumLeftFold` shows it equals the left fold `reduce` performs.
   */
  function Sum<T>(s: seq<T>, f: T -> int): (total: int)
    ensures s == [] ==> total == 0
    ensures |s| == 1 ==> total == f(s[0])
  {
    if s == [] then 0 else f(s[0]) + Sum(s[1..], f)
  }

  /** The left fold: the sum of all but the last element, plus the last. */
  lemma {:induction false} SumLeftFold<T>(s: seq<T>, f: T -> int)
    requires s != []
    ensures Sum(s, f) == Sum(s[..|s| - 1], f) + f(s[|s| - 1])
  {
    if |s| > 1 {
      assert s[..|s| - 1][1..] == s[1..][..|s| - 2];
      SumLeftFold(s[1..], f);
    }
  }

  /**
   * `Math.round(total / n)` for whole numbers: the nearest integer to the
   * quotient, ties going up, and `None` (JavaScript's NaN) when `n` is zero.
   */
  function RoundedMean(total: int, n: nat): (r: Option<int>)
    ensures r.None? <==> n == 0
    ensures r.Some? ==> 2 * n * r.value - n <= 2 * total < 2 * n * r.value + n
  {
    if n == 0 then None
    else
      var q := (2 * total + n) / (2 * n);
      assert 2 * n * q <= 2 * total + n < 2 * n * q + 2 * n;
      Some(q)
  }

  /** The nearest-integer condition determines the rounded mean. */
  lemma RoundedMeanUnique(total: int, n: nat, k: int)
    requires n > 0
    requires 2 * n * k - n <= 2 * total < 2 * n * k + n
    ensures RoundedMean(total, n) == Some(k)
  {
    var r := RoundedMean(total, n).value;
    if r < k {
      MulStrictlyBelow(n, r, k);
    } else if k < r {
      MulStrictlyBelow(n, k, r);
    }
  }

  /** A rounded mean of values in `lo..hi` is itself in `lo..hi`. */
  lemma RoundedMeanBounds(total: int, n: nat, lo: int, hi: int)
    requires n > 0
    requires lo * n <= total <= hi * n
    ensures RoundedMean(total, n).Some?
    ensures lo <= RoundedMean(total, n).value <= hi
  {
    var r := RoundedMean(total, n).value;
    if r > hi {
      MulStrictlyBelow(n, hi, r);
      assert false;
    }
    if r < lo {
      MulStrictlyBelow(n, r, lo);
      assert false;
    }
  }

  /** For a positive `n`, `a < b` puts `n * a` at least `n` below `n * b`. */
  lemma MulStrictlyBelow(n: nat, a: int, b: int)
    requires n > 0 && a < b
    ensures n * a + n <= n * b
  {
    MulAtLeast(n, b - a);
    assert n * b == n * a + n * (b - a);
  }

  lemma {:induction false} MulAtLeast(n: nat, d: int)
    requires d >= 1
    ensures n * d >= n
    decreases d
  {
    if d > 1 {
      MulAtLeast(n, d - 1);
      assert n * d == n * (d - 1) + n;
    }
  }

  /** The sum of values in `lo..hi` lies between `lo` and `hi` times their count. */
  lemma {:induction false} SumBounds<T>(s: seq<T>, f: T -> int, lo: int, hi: int)
    requires forall i :: 0 <= i < |s| ==> lo <= f(s[i]) <= hi
    ensures lo * |s| <= Sum(s, f) <= hi * |s|
  {
    if s != [] {
      SumBounds(s[1..], f, lo, hi);
      assert lo <= f(s[0]) <= hi;
      assert lo * |s| == lo * |s[1..]| + lo;
      assert hi * |s| == hi * |s[1..]| + hi;
    }
  }

  /**
   * Two tests that never pass together, and the test that neither passes,
   * split any list: their three counts add up to its length.
   */
  lemma {:induction false} FilterPartition<T(!new)>(s: seq<T>, p: T -> bool, q: T -> bool, rest: T -> bool)
    requires forall x :: !(p(x) && q(x))
    requires forall x :: rest(x) <==> !p(x) && !q(x)
    ensures |Filter(s, p)| + |Filter(s, q)| + |Filter(s, rest)| == |s|
  {
    if s != [] {
      FilterPartition(s[1..], p, q, rest);
    }
  }

  /** Counting the elements that pass a test on one key counts that key's occurrences. */
  lemma {:induction false} FilterCountsKey<T(!new), K>(s: seq<T>, keep: T -> bool, key: T -> K, k: K)
    requires forall x :: keep(x) <==> key(x) == k
    ensures |Filter(s, keep)| == multiset(MapSeq(s, key))[k]
  {
    if s != [] {
      FilterCountsKey(s[1..], keep, key, k);
      assert MapSeq(s, key) == [key(s[0])] + MapSeq(s[1..], key);
    }
  }
}
