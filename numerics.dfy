/** Reductions over real sequences as numpy computes them (sum, mean,
    max, min, median, population standard deviation, threshold count),
    each with the facts the statistics rely on. Arithmetic is exact:
    floating-point rounding is not modelled. */
module Numerics {

  /** The epsilon added to the denominators of the intensity normalisation
      and of the correlation score. */
  const Epsilon: real := 0.0000000001

  /** A square root as the numeric library provides it. Only the facts used
      here are assumed: the root of a non-negative number is non-negative,
      and the root of 0 is 0. Nothing is assumed of negative arguments, for
      which numpy returns NaN. */
  ghost predicate IsSqrt(sqrt: real -> real)
  {
    sqrt(0.0) == 0.0 && forall r :: r >= 0.0 ==> sqrt(r) >= 0.0
  }

  function Sum(s: seq<real>): real
  {
    if |s| == 0 then 0.0 else s[0] + Sum(s[1..])
  }

  function Mean(s: seq<real>): real
    requires |s| > 0
  {
    Sum(s) / |s| as real
  }

  /** Every element shifted by c. */
  function Shift(s: seq<real>, c: real): (r: seq<real>)
    ensures |r| == |s|
  {
    seq(|s|, i requires 0 <= i < |s| => s[i] + c)
  }

  /** Element-wise product of two sequences of the same length. */
  function Products(a: seq<real>, b: seq<real>): (r: seq<real>)
    requires |a| == |b|
    ensures |r| == |a|
  {
    seq(|a|, i requires 0 <= i < |a| => a[i] * b[i])
  }

  /** The deviations from the mean (numpy's `s - np.mean(s)`). */
  function Centered(s: seq<real>): (r: seq<real>)
    requires |s| > 0
    ensures |r| == |s|
  {
    Shift(s, -Mean(s))
  }

  function Max(s: seq<real>): (m: real)
    requires |s| > 0
    ensures m in s
    ensures forall i :: 0 <= i < |s| ==> s[i] <= m
  {
    if |s| == 1 then s[0]
    else
      var rest := Max(s[1..]);
      if s[0] >= rest then s[0] else rest
  }

  function Min(s: seq<real>): (m: real)
    requires |s| > 0
    ensures m in s
    ensures forall i :: 0 <= i < |s| ==> m <= s[i]
  {
    if |s| == 1 then s[0]
    else
      var rest := Min(s[1..]);
      if s[0] <= rest then s[0] else rest
  }

  /** How many elements are strictly greater than t (numpy's `np.sum(s > t)`). */
  function CountAbove(s: seq<real>, t: real): nat
  {
    if |s| == 0 then 0 else (if s[0] > t then 1 else 0) + CountAbove(s[1..], t)
  }

  predicate IsSorted(s: seq<real>)
  {
    forall i, j :: 0 <= i < j < |s| ==> s[i] <= s[j]
  }

  /** A head no larger than any element of a sorted tail keeps it sorted. */
  lemma SortedCons(h: real, t: seq<real>)
    requires IsSorted(t)
    requires forall k :: 0 <= k < |t| ==> h <= t[k]
    ensures IsSorted([h] + t)
  {
    var r := [h] + t;
    forall i, j | 0 <= i < j < |r| ensures r[i] <= r[j] {
      assert r[j] == t[j - 1];
      if i > 0 {
        assert r[i] == t[i - 1];
      }
    }
  }

  /** x inserted into the sorted sequence s. */
  function Insert(x: real, s: seq<real>): (r: seq<real>)
    requires IsSorted(s)
    ensures IsSorted(r)
    ensures multiset(r) == multiset(s) + multiset{x}
  {
    if |s| == 0 then [x]
    else if x <= s[0] then
      SortedCons(x, s);
      [x] + s
    else
      assert s == [s[0]] + s[1..];
      var tail := Insert(x, s[1..]);
      assert forall k :: 0 <= k < |tail| ==> s[0] <= tail[k] by {
        forall k | 0 <= k < |tail| ensures s[0] <= tail[k] {
          assert tail[k] in multiset(s[1..]) + multiset{x};
        }
      }
      SortedCons(s[0], tail);
      [s[0]] + tail
  }

  /** The ascending rearrangement of s that numpy's median works on. */
  function SortedCopy(s: seq<real>): (r: seq<real>)
    ensures IsSorted(r)
    ensures multiset(r) == multiset(s)
  {
    if |s| == 0 then []
    else
      assert s == [s[0]] + s[1..];
      Insert(s[0], SortedCopy(s[1..]))
  }

  /** numpy's median: the middle element of the sorted values, or the mean
      of the two middle ones when there is an even number of them. */
  function Median(s: seq<real>): real
    requires |s| > 0
  {
    var t := SortedCopy(s);
    assert |t| == |multiset(t)| == |multiset(s)| == |s|;
    var n := |t|;
    if n % 2 == 1 then t[n / 2] else (t[n / 2 - 1] + t[n / 2]) / 2.0
  }

  /** numpy's population standard deviation (ddof = 0). */
  function Std(s: seq<real>, sqrt: real -> real): real
    requires |s| > 0
  {
    var d := Centered(s);
    sqrt(Mean(Products(d, d)))
  }

  /** The standard deviation is the root of a mean of squares, which is
      never negative, so it is never negative itself. */
  lemma StdNonNegative(s: seq<real>, sqrt: real -> real)
    requires |s| > 0 && IsSqrt(sqrt)
    ensures Std(s, sqrt) >= 0.0
  {
    var d := Centered(s);
    SumOfSquaresNonNegative(d);
    assert Mean(Products(d, d)) >= 0.0;
  }

  // ---------------------------------------------------------------------
  // Facts about the reductions

  /** A sum of squares is never negative. */
  lemma {:induction false} SumOfSquaresNonNegative(s: seq<real>)
    ensures Sum(Products(s, s)) >= 0.0
  {
    if |s| > 0 {
      var p, q := Products(s, s), Products(s[1..], s[1..]);
      assert forall i :: 0 <= i < |q| ==> p[1..][i] == q[i];
      assert p[1..] == q;
      SumOfSquaresNonNegative(s[1..]);
      assert s[0] * s[0] >= 0.0;
    }
  }

  lemma {:induction false} SumShift(s: seq<real>, c: real)
    ensures Sum(Shift(s, c)) == Sum(s) + |s| as real * c
  {
    if |s| > 0 {
      assert Shift(s, c)[1..] == Shift(s[1..], c);
      SumShift(s[1..], c);
    }
  }

  lemma {:induction false} MeanShift(s: seq<real>, c: real)
    requires |s| > 0
    ensures Mean(Shift(s, c)) == Mean(s) + c
  {
    SumShift(s, c);
    var n := |s| as real;
    assert (Sum(s) + n * c) / n == Sum(s) / n + c;
  }

  /** Adding a constant leaves the deviations from the mean unchanged. */
  lemma CenteredShift(s: seq<real>, c: real)
    requires |s| > 0
    ensures Centered(Shift(s, c)) == Centered(s)
  {
    MeanShift(s, c);
  }

  lemma {:induction false} SumOfConstant(s: seq<real>, k: real)
    requires forall i :: 0 <= i < |s| ==> s[i] == k
    ensures Sum(s) == |s| as real * k
  {
    if |s| > 0 {
      SumOfConstant(s[1..], k);
    }
  }

  /** The deviations of a constant sequence are all zero. */
  lemma CenteredOfConstant(s: seq<real>, k: real)
    requires |s| > 0
    requires forall i :: 0 <= i < |s| ==> s[i] == k
    ensures forall i :: 0 <= i < |s| ==> Centered(s)[i] == 0.0
  {
    SumOfConstant(s, k);
    assert Mean(s) == k;
  }

  lemma {:induction false} SumOfZeros(s: seq<real>)
    requires forall i :: 0 <= i < |s| ==> s[i] == 0.0
    ensures Sum(s) == 0.0
  {
    if |s| > 0 {
      SumOfZeros(s[1..]);
    }
  }

  lemma {:induction false} SumBounds(s: seq<real>, lo: real, hi: real)
    requires forall i :: 0 <= i < |s| ==> lo <= s[i] <= hi
    ensures |s| as real * lo <= Sum(s) <= |s| as real * hi
  {
    if |s| > 0 {
      SumBounds(s[1..], lo, hi);
    }
  }

  /** Bounds on the elements bound the mean. */
  lemma MeanBounds(s: seq<real>, lo: real, hi: real)
    requires |s| > 0
    requires forall i :: 0 <= i < |s| ==> lo <= s[i] <= hi
    ensures lo <= Mean(s) <= hi
  {
    var n, total := |s| as real, Sum(s);
    SumBounds(s, lo, hi);
    QuotientBounds(total, n, lo, hi);
  }

  /** The mean lies between the smallest and the largest element. */
  lemma MeanBetweenMinAndMax(s: seq<real>)
    requires |s| > 0
    ensures Min(s) <= Mean(s) <= Max(s)
  {
    MeanBounds(s, Min(s), Max(s));
  }

  /** The median lies between the smallest and the largest element. */
  lemma {:induction false} MedianBetweenMinAndMax(s: seq<real>)
    requires |s| > 0
    ensures Min(s) <= Median(s) <= Max(s)
  {
    var t := SortedCopy(s);
    assert |t| == |multiset(t)| == |multiset(s)| == |s|;
    forall k | 0 <= k < |t| ensures Min(s) <= t[k] <= Max(s) {
      assert t[k] in multiset(t);
      var i :| 0 <= i < |s| && s[i] == t[k];
    }
    var n := |t|;
    if n % 2 == 0 {
      assert Min(s) <= t[n / 2 - 1] <= Max(s);
      assert Min(s) <= t[n / 2] <= Max(s);
    }
  }

  /** Bounds on a total divided by a positive count. */
  lemma QuotientBounds(t: real, n: real, lo: real, hi: real)
    requires n > 0.0 && n * lo <= t <= n * hi
    ensures lo <= t / n <= hi
  {
    assert t / n - lo == (t - n * lo) / n;
    assert hi - t / n == (n * hi - t) / n;
  }

  lemma FractionInUnit(a: real, d: real)
    requires 0.0 <= a < d
    ensures 0.0 <= a / d < 1.0
  {
    assert d / d == 1.0;
    assert d / d - a / d == (d - a) / d;
  }

  lemma DivideMonotone(a: real, b: real, d: real)
    requires a <= b && d > 0.0
    ensures a / d <= b / d
  {
    assert b / d - a / d == (b - a) / d;
  }

  lemma {:induction false} CountAboveAtMostLength(s: seq<real>, t: real)
    ensures CountAbove(s, t) <= |s|
  {
    if |s| > 0 {
      CountAboveAtMostLength(s[1..], t);
    }
  }

  lemma {:induction false} CountAboveConcat(a: seq<real>, b: seq<real>, t: real)
    ensures CountAbove(a + b, t) == CountAbove(a, t) + CountAbove(b, t)
  {
    if |a| > 0 {
      assert (a + b)[0] == a[0] && (a + b)[1..] == a[1..] + b;
      CountAboveConcat(a[1..], b, t);
    } else {
      assert a + b == b;
    }
  }

  /** A percentage of elements above a threshold lies in [0, 100]. */
  lemma PercentageAboveInRange(s: seq<real>, t: real)
    requires |s| > 0
    ensures 0.0 <= 100.0 * CountAbove(s, t) as real / |s| as real <= 100.0
  {
    CountAboveAtMostLength(s, t);
    var k, n := CountAbove(s, t) as real, |s| as real;
    QuotientBounds(100.0 * k, n, 0.0, 100.0);
  }
}
