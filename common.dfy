/** Sequence helpers shared by the whole model: an Option type, JavaScript's
    `filter`, a left-to-right `reduce` that sums a field, and the stable sort
    that `Array.prototype.sort` performs with a numeric comparator. */
module Common {

  datatype Option<+T> = None | Some(value: T)

  /** `s.filter(p)`: the elements of `s` that satisfy `p`, in their order. */
  function Filter<T>(s: seq<T>, p: T -> bool): (r: seq<T>)
    ensures |r| <= |s|
    ensures forall x :: x in r ==> x in s && p(x)
    ensures forall x :: x in s && p(x) ==> x in r
  {
    if s == [] then []
    else if p(s[0]) then [s[0]] + Filter(s[1..], p)
    else Filter(s[1..], p)
  }

  /** `s.reduce((sum, x) => sum + f(x), 0)`. */
  function Sum<T>(s: seq<T>, f: T -> real): real
  {
    if s == [] then 0.0 else f(s[0]) + Sum(s[1..], f)
  }

  /** `s.map(f)`. */
  function Map<T, U>(s: seq<T>, f: T -> U): (r: seq<U>)
    ensures |r| == |s|
    ensures forall i :: 0 <= i < |s| ==> r[i] == f(s[i])
  {
    if s == [] then [] else [f(s[0])] + Map(s[1..], f)
  }

  /** The number of elements of `s` that satisfy `p`. */
  function Count<T>(s: seq<T>, p: T -> bool): nat
  {
    |Filter(s, p)|
  }

  /** `s.some(p)`. */
  predicate Exists<T>(s: seq<T>, p: T -> bool)
  {
    exists i :: 0 <= i < |s| && p(s[i])
  }

  lemma {:induction false} FilterAppend<T>(a: seq<T>, b: seq<T>, p: T -> bool)
    ensures Filter(a + b, p) == Filter(a, p) + Filter(b, p)
  {
    if a == [] {
      assert a + b == b;
    } else {
      assert (a + b)[1..] == a[1..] + b;
      FilterAppend(a[1..], b, p);
    }
  }

  lemma {:induction false} SumAppend<T>(a: seq<T>, b: seq<T>, f: T -> real)
    ensures Sum(a + b, f) == Sum(a, f) + Sum(b, f)
  {
    if a == [] {
      assert a + b == b;
    } else {
      assert (a + b)[1..] == a[1..] + b;
      SumAppend(a[1..], b, f);
    }
  }

  lemma {:induction false} SumNonNegative<T>(s: seq<T>, f: T -> real)
    requires forall x :: x in s ==> f(x) >= 0.0
    ensures Sum(s, f) >= 0.0
  {
    if s != [] {
      SumNonNegative(s[1..], f);
    }
  }

  /** With non-negative summands, summing over a weaker filter never gives less. */
  lemma {:induction false} SumFilterMonotone<T>(s: seq<T>, p: T -> bool, q: T -> bool, f: T -> real)
    requires forall x :: x in s ==> f(x) >= 0.0
    requires forall x :: x in s && p(x) ==> q(x)
    ensures Sum(Filter(s, p), f) <= Sum(Filter(s, q), f)
  {
    if s != [] {
      SumFilterMonotone(s[1..], p, q, f);
      if q(s[0]) && !p(s[0]) {
        assert Filter(s, q) == [s[0]] + Filter(s[1..], q);
        assert Filter(s, p) == Filter(s[1..], p);
      }
    }
  }

  /** With non-negative summands, a filtered sum is at most the full sum. */
  lemma {:induction false} SumFilterBounded<T>(s: seq<T>, p: T -> bool, f: T -> real)
    requires forall x :: x in s ==> f(x) >= 0.0
    ensures Sum(Filter(s, p), f) <= Sum(s, f)
  {
    if s != [] {
      SumFilterBounded(s[1..], p, f);
    }
  }

  /** Filtering by a predicate that holds everywhere keeps everything. */
  lemma {:induction false} FilterAll<T>(s: seq<T>, p: T -> bool)
    requires forall x :: x in s ==> p(x)
    ensures Filter(s, p) == s
  {
    if s != [] {
      FilterAll(s[1..], p);
    }
  }

  /** Filtering by a predicate that holds nowhere keeps nothing. */
  lemma {:induction false} FilterNone<T>(s: seq<T>, p: T -> bool)
    requires forall x :: x in s ==> !p(x)
    ensures Filter(s, p) == []
  {
    if s != [] {
      FilterNone(s[1..], p);
    }
  }

  /** Filtering twice by the same predicate changes nothing the second time. */
  lemma {:induction false} FilterIdempotent<T>(s: seq<T>, p: T -> bool)
    ensures Filter(Filter(s, p), p) == Filter(s, p)
  {
    FilterAll(Filter(s, p), p);
  }

  /** `s.reverse()`. */
  function Reverse<T>(s: seq<T>): (r: seq<T>)
    ensures |r| == |s|
    ensures forall k :: 0 <= k < |s| ==> r[k] == s[|s| - 1 - k]
  {
    if s == [] then [] else [s[|s| - 1]] + Reverse(s[..|s| - 1])
  }

  lemma ReverseAt<T>(s: seq<T>, j: int)
    requires 0 <= j < |s|
    ensures Reverse(s)[j] == s[|s| - 1 - j]
  {
  }

  /** `[f(0), f(1), ..., f(n - 1)]`, built by appending as a counting loop
      that pushes `f(i)` does. */
  function Tabulate<T>(n: nat, f: nat -> T): (r: seq<T>)
    ensures |r| == n
  {
    if n == 0 then [] else Tabulate(n - 1, f) + [f(n - 1)]
  }

  lemma {:induction false} TabulateAt<T>(n: nat, f: nat -> T, k: nat)
    requires k < n
    ensures Tabulate(n, f)[k] == f(k)
  {
    if k < n - 1 {
      TabulateAt(n - 1, f, k);
    }
  }

  /** `[f(n - 1), ..., f(1), f(0)]`. */
  function Backwards<T>(n: nat, f: nat -> T): (r: seq<T>)
    ensures |r| == n
  {
    if n == 0 then [] else [f(n - 1)] + Backwards(n - 1, f)
  }

  lemma {:induction false} BackwardsAt<T>(n: nat, f: nat -> T, j: nat)
    requires j < n
    ensures Backwards(n, f)[j] == f(n - 1 - j)
  {
    if j > 0 {
      BackwardsAt(n - 1, f, j - 1);
    }
  }

  /** Entry `j` of `Backwards(n, f)` is any `x` that `f(n - 1 - j)` equals. */
  lemma BackwardsAtIs<T>(n: nat, f: nat -> T, j: nat, x: T)
    requires j < n && f(n - 1 - j) == x
    ensures Backwards(n, f)[j] == x
  {
    BackwardsAt(n, f, j);
  }

  /** Reversing a tabulation reads it backwards. */
  lemma ReverseTabulate<T>(n: nat, f: nat -> T)
    ensures Reverse(Tabulate(n, f)) == Backwards(n, f)
  {
    var r := Reverse(Tabulate(n, f));
    forall j | 0 <= j < n
      ensures r[j] == Backwards(n, f)[j]
    {
      TabulateAt(n, f, n - 1 - j);
      BackwardsAt(n, f, j);
    }
  }

  // ---------------------------------------------------------------------
  // Stable sort by a numeric key, ascending or descending, as
  // `s.sort((a, b) => key(a) - key(b))` (or `key(b) - key(a)`) does.

  /** May `a` stand before `b` in the sorted order? */
  predicate Before<T>(a: T, b: T, key: T -> real, desc: bool)
  {
    if desc then key(a) >= key(b) else key(a) <= key(b)
  }

  predicate Ordered<T>(s: seq<T>, key: T -> real, desc: bool)
  {
    forall i, j :: 0 <= i < j < |s| ==> Before(s[i], s[j], key, desc)
  }

  /** Inserts `x` in front of the first element it may precede. */
  function Insert<T>(x: T, s: seq<T>, key: T -> real, desc: bool): (r: seq<T>)
    requires Ordered(s, key, desc)
    ensures Ordered(r, key, desc)
    ensures multiset(r) == multiset(s) + multiset{x}
  {
    if s == [] then [x]
    else if Before(x, s[0], key, desc) then
      assert s == [s[0]] + s[1..];
      [x] + s
    else
      var rest := Insert(x, s[1..], key, desc);
      assert s == [s[0]] + s[1..];
      ConsOrdered(s[0], s[1..], x, rest, key, desc);
      [s[0]] + rest
  }

  /** Putting `h` in front of an ordered permutation of `t + [x]` stays ordered
      when `h` may precede every element of `t` and `x`. */
  lemma ConsOrdered<T>(h: T, t: seq<T>, x: T, rest: seq<T>, key: T -> real, desc: bool)
    requires Ordered([h] + t, key, desc)
    requires !Before(x, h, key, desc)
    requires Ordered(rest, key, desc)
    requires multiset(rest) == multiset(t) + multiset{x}
    ensures Ordered([h] + rest, key, desc)
  {
    forall y | y in rest
      ensures Before(h, y, key, desc)
    {
      assert y in multiset(rest);
      if y != x {
        assert y in t;
        var k :| 0 <= k < |t| && t[k] == y;
        var ht := [h] + t;
        assert ht[0] == h && ht[k + 1] == y;
        assert Before(ht[0], ht[k + 1], key, desc);
      }
    }
    var r := [h] + rest;
    forall i, j | 0 <= i < j < |r|
      ensures Before(r[i], r[j], key, desc)
    {
      if i == 0 {
        assert r[j] == rest[j - 1];
        assert rest[j - 1] in rest;
      } else {
        assert r[i] == rest[i - 1] && r[j] == rest[j - 1];
      }
    }
  }

  /** The result of the sort: ordered by the key and a permutation of `s`. */
  function SortByKey<T>(s: seq<T>, key: T -> real, desc: bool): (r: seq<T>)
    ensures Ordered(r, key, desc)
    ensures multiset(r) == multiset(s)
    ensures |r| == |s|
  {
    if s == [] then []
    else
      assert s == [s[0]] + s[1..];
      Insert(s[0], SortByKey(s[1..], key, desc), key, desc)
  }
}
