/** Exact-arithmetic counterparts of the numpy/pandas reductions the
    application uses: sums, products, means, extrema, sorting, variance and
    Python's `int()` truncation. */
module Numeric {

  /** Python's `min(a, b)` and `max(a, b)` on two numbers. */
  function MinR(a: real, b: real): real { if b < a then b else a }
  function MaxR(a: real, b: real): real { if b > a then b else a }

  /** `sum(s)`, accumulated left to right. */
  function Sum(s: seq<real>): real {
    if |s| == 0 then 0.0 else Sum(s[..|s| - 1]) + s[|s| - 1]
  }

  /** Extending a prefix by one element adds that element. */
  lemma SumStep(s: seq<real>, i: nat)
    requires i < |s|
    ensures Sum(s[..i + 1]) == Sum(s[..i]) + s[i]
  {
    assert s[..i + 1][..i] == s[..i];
  }

  lemma {:induction false} SumAtMost(s: seq<real>, v: real)
    requires forall i | 0 <= i < |s| :: s[i] <= v
    ensures Sum(s) <= |s| as real * v
  {
    if |s| > 0 {
      SumAtMost(s[..|s| - 1], v);
    }
  }

  lemma {:induction false} SumAtLeast(s: seq<real>, v: real)
    requires forall i | 0 <= i < |s| :: v <= s[i]
    ensures |s| as real * v <= Sum(s)
  {
    if |s| > 0 {
      SumAtLeast(s[..|s| - 1], v);
    }
  }

  lemma {:induction false} SumConcat(a: seq<real>, b: seq<real>)
    ensures Sum(a + b) == Sum(a) + Sum(b)
    decreases |b|
  {
    if |b| > 0 {
      assert (a + b)[..|a + b| - 1] == a + b[..|b| - 1];
      SumConcat(a, b[..|b| - 1]);
    } else {
      assert a + b == a;
    }
  }

  /** `n` copies of `c` add up to `n * c`. */
  lemma {:induction false} SumConstant(n: nat, c: real)
    ensures Sum(seq(n, _ => c)) == n as real * c
  {
    if n > 0 {
      assert seq(n, _ => c)[..n - 1] == seq(n - 1, _ => c);
      SumConstant(n - 1, c);
    }
  }

  /** `np.prod(s)` / `Series.prod()`, accumulated left to right. */
  function Prod(s: seq<real>): real {
    if |s| == 0 then 1.0 else Prod(s[..|s| - 1]) * s[|s| - 1]
  }

  lemma {:induction false} ProdPositive(s: seq<real>)
    requires forall i | 0 <= i < |s| :: s[i] > 0.0
    ensures Prod(s) > 0.0
  {
    if |s| > 0 {
      ProdPositive(s[..|s| - 1]);
    }
  }

  lemma {:induction false} ProdConcat(a: seq<real>, b: seq<real>)
    ensures Prod(a + b) == Prod(a) * Prod(b)
    decreases |b|
  {
    if |b| > 0 {
      assert (a + b)[..|a + b| - 1] == a + b[..|b| - 1];
      ProdConcat(a, b[..|b| - 1]);
    } else {
      assert a + b == a;
    }
  }

  /** Scaling every element scales the sum. */
  lemma {:induction false} SumScale(s: seq<real>, c: real)
    ensures Sum(seq(|s|, i requires 0 <= i < |s| => s[i] * c)) == Sum(s) * c
  {
    if |s| > 0 {
      var n := |s|;
      var t := seq(n, i requires 0 <= i < n => s[i] * c);
      var u := s[..n - 1];
      var tu := seq(|u|, i requires 0 <= i < |u| => u[i] * c);
      assert |t[..n - 1]| == |tu|;
      assert forall i | 0 <= i < n - 1 :: t[..n - 1][i] == tu[i];
      assert t[..n - 1] == tu;
      SumScale(u, c);
    }
  }

  /** A sum whose elements are all zero but one is that element. */
  lemma {:induction false} SumOneNonZero(s: seq<real>, j: nat)
    requires j < |s|
    requires forall i | 0 <= i < |s| && i != j :: s[i] == 0.0
    ensures Sum(s) == s[j]
  {
    var n := |s|;
    if j < n - 1 {
      SumOneNonZero(s[..n - 1], j);
    } else {
      AllZero(s[..n - 1]);
    }
  }

  lemma {:induction false} AllZero(s: seq<real>)
    requires forall i | 0 <= i < |s| :: s[i] == 0.0
    ensures Sum(s) == 0.0
  {
    if |s| > 0 {
      AllZero(s[..|s| - 1]);
    }
  }

  /** Division by a positive number distributes over sums and differences,
      preserves order and sign, and cancels its divisor. */
  lemma DivSum(a: real, b: real, t: real)
    requires t > 0.0
    ensures a / t + b / t == (a + b) / t
    ensures a / t - b / t == (a - b) / t
  {
  }

  lemma DivOrder(a: real, b: real, t: real)
    requires t > 0.0
    ensures a <= b <==> a / t <= b / t
    ensures a / t > 0.0 <==> a > 0.0
    ensures a / t == 0.0 <==> a == 0.0
    ensures t / t == 1.0
  {
  }

  /** `np.mean(s)` of a non-empty sequence. */
  function Mean(s: seq<real>): real
    requires |s| > 0
  {
    Sum(s) / |s| as real
  }

  /** The mean lies within any bounds that hold of every element. */
  lemma MeanWithin(s: seq<real>, lo: real, hi: real)
    requires |s| > 0
    requires forall i | 0 <= i < |s| :: lo <= s[i] <= hi
    ensures lo <= Mean(s) <= hi
  {
    SumAtMost(s, hi);
    SumAtLeast(s, lo);
    var n := |s| as real;
    assert Sum(s) / n <= hi by { assert Sum(s) <= n * hi; }
    assert lo <= Sum(s) / n by { assert n * lo <= Sum(s); }
  }

  /** `np.var(s)` (population variance, `ddof=0`) of a non-empty sequence. */
  function PopVariance(s: seq<real>): real
    requires |s| > 0
  {
    var m := Mean(s);
    Mean(seq(|s|, i requires 0 <= i < |s| => (s[i] - m) * (s[i] - m)))
  }

  lemma PopVarianceNonNegative(s: seq<real>)
    requires |s| > 0
    ensures PopVariance(s) >= 0.0
  {
    var m := Mean(s);
    var d := seq(|s|, i requires 0 <= i < |s| => (s[i] - m) * (s[i] - m));
    forall i | 0 <= i < |d| ensures 0.0 <= d[i] {
      SquareNonNegative(s[i] - m);
    }
    SumAtLeast(d, 0.0);
    assert 0.0 <= Sum(d);
    DivOrder(0.0, Sum(d), |d| as real);
  }

  lemma SquareNonNegative(x: real)
    ensures 0.0 <= x * x
  {
    if x < 0.0 {
      assert x * x == (-x) * (-x);
    }
  }

  /** The smallest element. */
  function Min(s: seq<real>): (m: real)
    requires |s| > 0
    ensures exists i | 0 <= i < |s| :: s[i] == m
    ensures forall i | 0 <= i < |s| :: m <= s[i]
  {
    if |s| == 1 then s[0]
    else
      var rest := Min(s[..|s| - 1]);
      assert forall i | 0 <= i < |s| - 1 :: s[..|s| - 1][i] == s[i];
      if s[|s| - 1] < rest then s[|s| - 1] else rest
  }

  /** The largest element. */
  function Max(s: seq<real>): (m: real)
    requires |s| > 0
    ensures exists i | 0 <= i < |s| :: s[i] == m
    ensures forall i | 0 <= i < |s| :: s[i] <= m
  {
    if |s| == 1 then s[0]
    else
      var rest := Max(s[..|s| - 1]);
      assert forall i | 0 <= i < |s| - 1 :: s[..|s| - 1][i] == s[i];
      if s[|s| - 1] > rest then s[|s| - 1] else rest
  }

  predicate Sorted(s: seq<real>) {
    forall i, j | 0 <= i <= j < |s| :: s[i] <= s[j]
  }

  /** Inserts `x` before the first element not smaller than it. */
  function Insert(x: real, s: seq<real>): (r: seq<real>)
    ensures multiset(r) == multiset(s) + multiset{x}
    ensures |r| == |s| + 1
  {
    if s == [] || x <= s[0] then [x] + s
    else
      assert s == [s[0]] + s[1..];
      [s[0]] + Insert(x, s[1..])
  }

  /** Insertion keeps a sorted sequence sorted. */
  lemma {:induction false} InsertSorted(x: real, s: seq<real>)
    requires Sorted(s)
    ensures Sorted(Insert(x, s))
  {
    if s != [] && x > s[0] {
      var t := Insert(x, s[1..]);
      InsertSorted(x, s[1..]);
      assert s == [s[0]] + s[1..];
      forall k | 0 <= k < |t| ensures s[0] <= t[k] {
        assert t[k] in multiset(t);
        if t[k] != x {
          assert t[k] in multiset(s[1..]);
        }
      }
    }
  }

  /** `np.sort(s)`: ascending order, the same elements. */
  function Sort(s: seq<real>): (r: seq<real>)
    ensures Sorted(r)
    ensures multiset(r) == multiset(s)
    ensures |r| == |s|
  {
    if s == [] then []
    else
      assert s == [s[0]] + s[1..];
      var t := Sort(s[1..]);
      InsertSorted(s[0], t);
      Insert(s[0], t)
  }

  /** Every element of a permutation is an element of the original. */
  lemma PermutationMember(r: seq<real>, s: seq<real>, i: nat)
    requires multiset(r) == multiset(s) && i < |r|
    ensures exists j | 0 <= j < |s| :: s[j] == r[i]
  {
    assert r[i] in multiset(r);
    assert r[i] in s;
  }

  /** A sorted permutation starts at the minimum and ends at the maximum. */
  lemma SortedPermutationExtremes(r: seq<real>, s: seq<real>)
    requires |s| > 0 && |r| == |s|
    requires Sorted(r) && multiset(r) == multiset(s)
    ensures r[0] == Min(s) && r[|s| - 1] == Max(s)
  {
    var lo, hi := Min(s), Max(s);
    PermutationMember(r, s, 0);
    PermutationMember(r, s, |s| - 1);
    var i :| 0 <= i < |s| && s[i] == lo;
    var j :| 0 <= j < |s| && s[j] == hi;
    PermutationMember(s, r, i);
    PermutationMember(s, r, j);
    var k :| 0 <= k < |r| && r[k] == lo;
    var m :| 0 <= m < |r| && r[m] == hi;
    assert r[0] <= r[k] && r[m] <= r[|s| - 1];
  }

  /** The first and last elements of the sorted sequence are the extremes. */
  lemma SortExtremes(s: seq<real>)
    requires |s| > 0
    ensures Sort(s)[0] == Min(s)
    ensures Sort(s)[|s| - 1] == Max(s)
  {
    SortedPermutationExtremes(Sort(s), s);
  }

  /** Python's `int(x)`: rounds toward zero. */
  function Trunc(x: real): (k: int)
    ensures 0.0 <= x ==> k as real <= x < k as real + 1.0
    ensures x < 0.0 ==> k as real - 1.0 < x <= k as real
  {
    if x >= 0.0 then x.Floor else -((-x).Floor)
  }
}
