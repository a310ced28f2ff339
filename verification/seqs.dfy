/** The list operations the components chain together: `filter`, a
    `reduce` that sums, `slice(0, n)`, `find`, and a stable descending
    `sort` by a numeric key. */
module Seqs {
  import opened Wrappers

  /** `xs.filter(p)`. */
  function Filter<T>(xs: seq<T>, p: T -> bool): (r: seq<T>)
    ensures |r| <= |xs|
    ensures forall i :: 0 <= i < |r| ==> r[i] in xs && p(r[i])
    ensures forall i :: 0 <= i < |xs| && p(xs[i]) ==> xs[i] in r
  {
    if xs == [] then []
    else (if p(xs[0]) then [xs[0]] else []) + Filter(xs[1..], p)
  }

  /** Whatever a filter keeps comes from the list and passes the test. */
  lemma {:induction false} FilterMember<T>(xs: seq<T>, p: T -> bool, x: T)
    requires x in Filter(xs, p)
    ensures x in xs && p(x)
  {
    if xs != [] && !(p(xs[0]) && x == xs[0]) {
      FilterMember(xs[1..], p, x);
    }
  }

  /** Filtering commutes with concatenation, so the kept elements stay in
      their input order. */
  lemma {:induction false} FilterAppend<T>(a: seq<T>, b: seq<T>, p: T -> bool)
    ensures Filter(a + b, p) == Filter(a, p) + Filter(b, p)
  {
    if a == [] {
      assert a + b == b;
    } else {
      assert (a + b)[1..] == a[1..] + b;
      FilterAppend(a[1..], b, p);
    }
  }

  /** An element satisfying `p` is kept once for every time it occurs; one
      failing `p` is dropped. */
  lemma {:induction false} FilterMultiset<T>(xs: seq<T>, p: T -> bool)
    ensures forall x :: p(x) ==> multiset(Filter(xs, p))[x] == multiset(xs)[x]
    ensures forall x :: !p(x) ==> multiset(Filter(xs, p))[x] == 0
  {
    if xs != [] {
      FilterMultiset(xs[1..], p);
      assert xs == [xs[0]] + xs[1..];
    }
  }

  /** The elements failing `p` and those passing it together make up `xs`. */
  lemma FilterPartition<T>(xs: seq<T>, p: T -> bool, q: T -> bool)
    requires forall x :: q(x) == !p(x)
    ensures multiset(Filter(xs, p)) + multiset(Filter(xs, q)) == multiset(xs)
    ensures |Filter(xs, p)| + |Filter(xs, q)| == |xs|
  {
    FilterMultiset(xs, p);
    FilterMultiset(xs, q);
    assert multiset(Filter(xs, p)) + multiset(Filter(xs, q)) == multiset(xs);
    assert |multiset(Filter(xs, p)) + multiset(Filter(xs, q))| == |multiset(xs)|;
  }

  /** Filters with the same verdict on every element keep the same list. */
  lemma {:induction false} FilterSame<T>(xs: seq<T>, p: T -> bool, q: T -> bool)
    requires forall x :: x in xs ==> p(x) == q(x)
    ensures Filter(xs, p) == Filter(xs, q)
  {
    if xs != [] {
      FilterSame(xs[1..], p, q);
    }
  }

  /** Two filters in a row keep what their conjunction keeps. */
  lemma {:induction false} FilterFilter<T>(xs: seq<T>, p: T -> bool, q: T -> bool, pq: T -> bool)
    requires forall x :: pq(x) == (p(x) && q(x))
    ensures Filter(Filter(xs, p), q) == Filter(xs, pq)
  {
    if xs != [] {
      FilterFilter(xs[1..], p, q, pq);
      FilterAppend((if p(xs[0]) then [xs[0]] else []), Filter(xs[1..], p), q);
    }
  }

  /** A filter every element passes keeps the list as it is. */
  lemma {:induction false} FilterKeepsAll<T>(xs: seq<T>, p: T -> bool)
    requires forall k :: 0 <= k < |xs| ==> p(xs[k])
    ensures Filter(xs, p) == xs
  {
    if xs != [] {
      FilterKeepsAll(xs[1..], p);
    }
  }

  /** A filter no element passes leaves nothing. */
  lemma {:induction false} FilterNone<T>(xs: seq<T>, p: T -> bool)
    requires forall k :: 0 <= k < |xs| ==> !p(xs[k])
    ensures Filter(xs, p) == []
  {
    if xs != [] {
      FilterNone(xs[1..], p);
    }
  }

  /** An element the predicate rejects can be dropped before filtering. */
  lemma FilterSkip<T>(a: seq<T>, x: T, b: seq<T>, p: T -> bool)
    requires !p(x)
    ensures Filter(a + [x] + b, p) == Filter(a + b, p)
  {
    FilterAppend(a + [x], b, p);
    FilterAppend(a, [x], p);
    FilterAppend(a, b, p);
    assert Filter([x], p) == [];
  }

  /** `xs.reduce((sum, x) => sum + f(x), 0)`; with exact arithmetic the
      order of the additions does not matter. */
  function Sum<T>(xs: seq<T>, f: T -> real): real {
    if xs == [] then 0.0 else f(xs[0]) + Sum(xs[1..], f)
  }

  lemma {:induction false} SumAppend<T>(a: seq<T>, b: seq<T>, f: T -> real)
    ensures Sum(a + b, f) == Sum(a, f) + Sum(b, f)
  {
    if a == [] {
      assert a + b == b;
    } else {
      assert (a + b)[1..] == a[1..] + b;
      SumAppend(a[1..], b, f);
    }
  }

  /** Taking one element out of a list takes its summand out of the sum. */
  lemma SumRemove<T>(b: seq<T>, j: nat, f: T -> real)
    requires j < |b|
    ensures Sum(b, f) == f(b[j]) + Sum(b[..j] + b[j + 1..], f)
  {
    var front, x, back := b[..j], b[j], b[j + 1..];
    assert b == front + [x] + back;
    SumAppend(front + [x], back, f);
    SumAppend(front, [x], f);
    SumAppend(front, back, f);
    assert Sum([x], f) == f(x) + Sum([], f);
  }

  lemma MultisetRemove<T>(b: seq<T>, j: nat)
    requires j < |b|
    ensures multiset(b[..j] + b[j + 1..]) == multiset(b) - multiset{b[j]}
  {
    assert b == b[..j] + [b[j]] + b[j + 1..];
  }

  /** A sum depends only on the multiset of summed elements. */
  lemma {:induction false} SumPermutation<T>(a: seq<T>, b: seq<T>, f: T -> real)
    requires multiset(a) == multiset(b)
    ensures Sum(a, f) == Sum(b, f)
  {
    if a != [] {
      var x := a[0];
      assert x in multiset(b);
      var j :| 0 <= j < |b| && b[j] == x;
      var rest := b[..j] + b[j + 1..];
      MultisetRemove(b, j);
      assert a == [x] + a[1..];
      assert multiset(a[1..]) == multiset(a) - multiset{x};
      SumPermutation(a[1..], rest, f);
      SumRemove(b, j, f);
    }
  }

  /** Summing the elements that pass `p` and those that fail it gives the
      whole sum. */
  lemma {:induction false} SumFilterSplit<T>(xs: seq<T>, p: T -> bool, q: T -> bool, f: T -> real)
    requires forall x :: q(x) == !p(x)
    ensures Sum(xs, f) == Sum(Filter(xs, p), f) + Sum(Filter(xs, q), f)
  {
    if xs != [] {
      SumFilterSplit(xs[1..], p, q, f);
      SumAppend((if p(xs[0]) then [xs[0]] else []), Filter(xs[1..], p), f);
      SumAppend((if q(xs[0]) then [xs[0]] else []), Filter(xs[1..], q), f);
    }
  }

  /** Sums with the same summand on every element agree. */
  lemma {:induction false} SumSame<T>(xs: seq<T>, f: T -> real, g: T -> real)
    requires forall x :: x in xs ==> f(x) == g(x)
    ensures Sum(xs, f) == Sum(xs, g)
  {
    if xs != [] {
      SumSame(xs[1..], f, g);
    }
  }

  /** A sum of non-negative summands is non-negative. */
  lemma {:induction false} SumNonNegative<T>(xs: seq<T>, f: T -> real)
    requires forall x :: x in xs ==> f(x) >= 0.0
    ensures Sum(xs, f) >= 0.0
  {
    if xs != [] {
      SumNonNegative(xs[1..], f);
    }
  }

  /** `xs.slice(0, n)`. */
  function Take<T>(xs: seq<T>, n: nat): (r: seq<T>)
    ensures |r| == if |xs| < n then |xs| else n
    ensures forall i :: 0 <= i < |r| ==> r[i] == xs[i]
    ensures |xs| <= n ==> r == xs
  {
    if |xs| <= n then xs else xs[..n]
  }

  /** `xs.find(p)`: the first element passing `p`, if any. */
  function Find<T(==)>(xs: seq<T>, p: T -> bool): (r: Option<T>)
    ensures r.Some? ==> r.value in xs && p(r.value)
    ensures r.None? <==> forall i :: 0 <= i < |xs| ==> !p(xs[i])
    ensures r.Some? ==> exists i :: 0 <= i < |xs| && xs[i] == r.value && forall j :: 0 <= j < i ==> !p(xs[j])
  {
    if xs == [] then None
    else if p(xs[0]) then Some(xs[0])
    else
      var r := Find(xs[1..], p);
      assert r.Some? ==> exists i :: 0 <= i < |xs[1..]| && xs[1..][i] == r.value && forall j :: 0 <= j < i ==> !p(xs[1..][j]);
      if r.Some? then
        var i :| 0 <= i < |xs[1..]| && xs[1..][i] == r.value && forall j :: 0 <= j < i ==> !p(xs[1..][j]);
        assert xs[i + 1] == r.value && forall j :: 0 <= j < i + 1 ==> !p(xs[j]);
        r
      else r
  }

  /** An element passing `p` with no passing element before it is the one
      found. */
  lemma FindFirst<T>(xs: seq<T>, p: T -> bool, i: nat)
    requires i < |xs| && p(xs[i])
    requires forall j :: 0 <= j < i ==> !p(xs[j])
    ensures Find(xs, p) == Some(xs[i])
  {
    var r := Find(xs, p);
    assert r.Some?;
    var k :| 0 <= k < |xs| && xs[k] == r.value && forall j :: 0 <= j < k ==> !p(xs[j]);
    if k < i {
      assert !p(xs[k]);
    }
  }

  /** Lists with the same multiset hold the same elements. */
  lemma SameElements<T>(a: seq<T>, b: seq<T>)
    requires multiset(a) == multiset(b)
    ensures forall i :: 0 <= i < |a| ==> a[i] in b
    ensures forall i :: 0 <= i < |b| ==> b[i] in a
  {
    assert forall i :: 0 <= i < |a| ==> a[i] in multiset(b);
    assert forall i :: 0 <= i < |b| ==> b[i] in multiset(a);
  }

  /** Non-increasing by `key`, as a comparator `(a, b) => key(b) - key(a)`
      leaves a list. */
  ghost predicate SortedDesc<T>(xs: seq<T>, key: T -> real) {
    forall i, j :: 0 <= i < j < |xs| ==> key(xs[i]) >= key(xs[j])
  }

  /** An element no smaller than the head of a sorted list can go in
      front of it. */
  lemma ConsSorted<T>(y: T, ys: seq<T>, key: T -> real)
    requires SortedDesc(ys, key)
    requires ys != [] ==> key(y) >= key(ys[0])
    ensures SortedDesc([y] + ys, key)
  {
    var r := [y] + ys;
    forall i, j | 0 <= i < j < |r|
      ensures key(r[i]) >= key(r[j])
    {
      if i == 0 {
        assert r[j] == ys[j - 1];
        assert key(ys[0]) >= key(ys[j - 1]) || j - 1 == 0;
      } else {
        assert r[i] == ys[i - 1] && r[j] == ys[j - 1];
      }
    }
  }

  /** Places `x` in front of the first element whose key is not larger. */
  function Insert<T>(x: T, xs: seq<T>, key: T -> real): (r: seq<T>)
    requires SortedDesc(xs, key)
    ensures SortedDesc(r, key)
    ensures multiset(r) == multiset(xs) + multiset{x}
    ensures |r| == |xs| + 1
    ensures key(r[0]) == key(x) || (xs != [] && key(r[0]) == key(xs[0]))
  {
    if xs == [] || key(xs[0]) <= key(x) then
      ConsSorted(x, xs, key);
      [x] + xs
    else
      var tail := Insert(x, xs[1..], key);
      ConsSorted(xs[0], tail, key);
      assert xs == [xs[0]] + xs[1..];
      [xs[0]] + tail
  }

  /** The sort `xs.sort((a, b) => key(b) - key(a))`, as an insertion sort:
      each element goes in front of the first element of the sorted rest
      whose key is not larger. The contract states the order by key and
      the permutation, not the relative order of equal keys. */
  function SortDesc<T>(xs: seq<T>, key: T -> real): (r: seq<T>)
    ensures SortedDesc(r, key)
    ensures multiset(r) == multiset(xs)
    ensures |r| == |xs|
  {
    if xs == [] then []
    else
      var rest := SortDesc(xs[1..], key);
      assert xs == [xs[0]] + xs[1..];
      assert multiset(xs) == multiset(xs[1..]) + multiset{xs[0]};
      Insert(xs[0], rest, key)
  }
}
