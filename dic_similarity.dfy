/** The similarity score of the engine, zero-mean normalised
    cross-correlation (`zero_mean_normalized_cross_correlation`). */
module DicSimilarity {
  import opened Numerics
  import opened Matrices

  /** ZNCC of two equally long sequences of intensities:
      sum(a0 * b0) / (sqrt(sum(a0^2) * sum(b0^2)) + 1e-10), where a0 and b0
      are the deviations from the respective means. */
  function ZnccOf(a: seq<real>, b: seq<real>, sqrt: real -> real): real
    requires |a| == |b| > 0 && IsSqrt(sqrt)
  {
    Correlation(Centered(a), Centered(b), sqrt)
  }

  /** The normalised cross-correlation of two sequences of deviations. The
      root is taken of a product of two sums of squares, which is never
      negative, so the denominator is at least the epsilon. */
  function Correlation(a0: seq<real>, b0: seq<real>, sqrt: real -> real): real
    requires |a0| == |b0| && IsSqrt(sqrt)
  {
    SumOfSquaresNonNegative(a0);
    SumOfSquaresNonNegative(b0);
    assert Sum(Products(a0, a0)) * Sum(Products(b0, b0)) >= 0.0;
    Sum(Products(a0, b0)) / (sqrt(Sum(Products(a0, a0)) * Sum(Products(b0, b0))) + Epsilon)
  }

  /** Two non-empty windows of one shape. */
  predicate Comparable(a: seq<seq<real>>, b: seq<seq<real>>)
  {
    Rectangular(a) && IsMatrix(b, Height(a), Width(a)) && Height(a) > 0 && Width(a) > 0
  }

  /** ZNCC of two windows; numpy's element-wise operations see the entries in
      row-major order. */
  function Zncc(a: seq<seq<real>>, b: seq<seq<real>>, sqrt: real -> real): real
    requires Comparable(a, b) && IsSqrt(sqrt)
  {
    FlattenLength(a, Height(a), Width(a));
    FlattenLength(b, Height(a), Width(a));
    ZnccOf(Flatten(a), Flatten(b), sqrt)
  }

  // ---------------------------------------------------------------------
  // Properties of the score

  /** The score does not depend on which window is the reference. */
  lemma ZnccSymmetric(a: seq<seq<real>>, b: seq<seq<real>>, sqrt: real -> real)
    requires Comparable(a, b) && IsSqrt(sqrt)
    ensures Comparable(b, a)
    ensures Zncc(a, b, sqrt) == Zncc(b, a, sqrt)
  {
    FlattenLength(a, Height(a), Width(a));
    FlattenLength(b, Height(a), Width(a));
    var a0, b0 := Centered(Flatten(a)), Centered(Flatten(b));
    assert Products(a0, b0) == Products(b0, a0);
    var sa, sb := Sum(Products(a0, a0)), Sum(Products(b0, b0));
    assert sa * sb == sb * sa;
    assert Correlation(a0, b0, sqrt) == Correlation(b0, a0, sqrt);
  }

  lemma AddConstantComparable(a: seq<seq<real>>, b: seq<seq<real>>, c: real)
    requires Comparable(a, b)
    ensures Comparable(AddConstant(a, c), b) && Comparable(a, AddConstant(b, c))
  {
    assert Width(AddConstant(a, c)) == Width(a);
  }

  /** Adding a constant brightness to either window leaves the score
      unchanged. */
  lemma ZnccShiftInvariant(a: seq<seq<real>>, b: seq<seq<real>>, c: real, sqrt: real -> real)
    requires Comparable(a, b) && IsSqrt(sqrt)
    ensures Comparable(AddConstant(a, c), b) && Comparable(a, AddConstant(b, c))
    ensures Zncc(AddConstant(a, c), b, sqrt) == Zncc(a, b, sqrt)
    ensures Zncc(a, AddConstant(b, c), sqrt) == Zncc(a, b, sqrt)
  {
    AddConstantComparable(a, b, c);
    FlattenLength(a, Height(a), Width(a));
    FlattenLength(b, Height(a), Width(a));
    FlattenAddConstant(a, c);
    FlattenAddConstant(b, c);
    CenteredShift(Flatten(a), c);
    CenteredShift(Flatten(b), c);
  }

  /** A window without texture (all entries equal) scores exactly 0 against
      any window. */
  lemma ZnccOfConstantWindow(a: seq<seq<real>>, b: seq<seq<real>>, k: real, sqrt: real -> real)
    requires Comparable(a, b) && IsSqrt(sqrt)
    requires IsConstant(a, k) || IsConstant(b, k)
    ensures Zncc(a, b, sqrt) == 0.0
  {
    FlattenLength(a, Height(a), Width(a));
    FlattenLength(b, Height(a), Width(a));
    var fa, fb := Flatten(a), Flatten(b);
    var a0, b0 := Centered(fa), Centered(fb);
    if IsConstant(a, k) {
      FlattenOfConstant(a, k);
      CenteredOfConstant(fa, k);
    } else {
      FlattenOfConstant(b, k);
      CenteredOfConstant(fb, k);
    }
    SumOfZeros(Products(a0, b0));
    SumOfSquaresNonNegative(a0);
    SumOfSquaresNonNegative(b0);
    assert Sum(Products(a0, a0)) * Sum(Products(b0, b0)) >= 0.0;
  }
}
