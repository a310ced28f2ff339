/** Fixed series of buckets over consecutive integer keys (days, days of a
    month, month indices), as the report charts build them. */
module Buckets {
  import opened Seqs

  /** Elements whose key is exactly `k`. */
  function KeyIs<T>(key: T -> int, k: int): T -> bool {
    (x: T) => key(x) == k
  }

  /** Elements whose key lies in `[lo, hi)`. */
  function KeyIn<T>(key: T -> int, lo: int, hi: int): T -> bool {
    (x: T) => lo <= key(x) < hi
  }

  /** Elements whose key lies outside `[lo, hi)`. */
  function KeyOut<T>(key: T -> int, lo: int, hi: int): T -> bool {
    (x: T) => !(lo <= key(x) < hi)
  }

  /** The `n` buckets for keys `lo`, `lo + 1`, ...: bucket `i` sums `f` over
      the elements whose key is `lo + i`. */
  function BucketSums<T>(xs: seq<T>, key: T -> int, f: T -> real, lo: int, n: nat): (r: seq<real>)
    ensures |r| == n
  {
    seq(n, i requires 0 <= i < n => Sum(Filter(xs, KeyIs(key, lo + i)), f))
  }

  function Id(x: real): real {
    x
  }

  /** The sum of a series of amounts. */
  function Total(s: seq<real>): real {
    Sum(s, Id)
  }

  /** One more bucket appends the sum of the next key. */
  lemma BucketSumsSnoc<T>(xs: seq<T>, key: T -> int, f: T -> real, lo: int, m: nat)
    ensures BucketSums(xs, key, f, lo, m + 1) == BucketSums(xs, key, f, lo, m) + [Sum(Filter(xs, KeyIs(key, lo + m)), f)]
  {
  }

  /** An element has exactly one key, so the buckets together hold every
      element whose key is in range, each once: their total is the sum over
      those elements. */
  lemma {:induction false} BucketsPartitionRange<T>(xs: seq<T>, key: T -> int, f: T -> real, lo: int, n: nat)
    ensures Total(BucketSums(xs, key, f, lo, n)) == Sum(Filter(xs, KeyIn(key, lo, lo + n)), f)
  {
    var whole := Filter(xs, KeyIn(key, lo, lo + n));
    if n == 0 {
      assert whole == [];
    } else {
      var m := n - 1;
      BucketsPartitionRange(xs, key, f, lo, m);
      BucketSumsSnoc(xs, key, f, lo, m);
      SumAppend(BucketSums(xs, key, f, lo, m), [Sum(Filter(xs, KeyIs(key, lo + m)), f)], Id);
      SumFilterSplit(whole, KeyIn(key, lo, lo + m), KeyOut(key, lo, lo + m), f);
      FilterFilter(xs, KeyIn(key, lo, lo + n), KeyIn(key, lo, lo + m), KeyIn(key, lo, lo + m));
      FilterFilter(xs, KeyIn(key, lo, lo + n), KeyOut(key, lo, lo + m), KeyIs(key, lo + m));
    }
  }

  /** A bucket only sees the elements the caller kept: dropping elements
      that cannot land in bucket `k` does not change it. */
  lemma BucketIgnoresOthers<T>(xs: seq<T>, keep: T -> bool, key: T -> int, k: int, f: T -> real)
    requires forall x :: key(x) == k ==> keep(x)
    ensures Sum(Filter(Filter(xs, keep), KeyIs(key, k)), f) == Sum(Filter(xs, KeyIs(key, k)), f)
  {
    FilterFilter(xs, keep, KeyIs(key, k), KeyIs(key, k));
  }

  /** Adding two series point by point adds their totals. */
  lemma {:induction false} TotalPointwise(a: seq<real>, b: seq<real>, c: seq<real>)
    requires |a| == |b| == |c|
    requires forall i :: 0 <= i < |c| ==> c[i] == a[i] + b[i]
    ensures Total(c) == Total(a) + Total(b)
  {
    if c != [] {
      TotalPointwise(a[1..], b[1..], c[1..]);
    }
  }
}
