/** Sub-pixel sampling: bilinear interpolation with a hard-zero boundary rule
    (`bilinear_interpolation`) and the S x S window it builds
    (`get_subset_interpolated`, whose loop is DicAlgorithm's
    GetSubsetInterpolated). */
module DicSampling {
  import opened Matrices

  /** The intensity at (x, y), x along a row and y down the columns. If any of
      the four neighbouring pixels is missing, the value is 0; note that this
      already happens at x = width - 1 or y = height - 1 exactly, because the
      right or lower neighbour is tested even when its weight is zero. */
  function Bilinear(img: seq<seq<real>>, x: real, y: real): real
    requires Rectangular(img)
  {
    var x0 := x.Floor;
    var x1 := x0 + 1;
    var y0 := y.Floor;
    var y1 := y0 + 1;
    if x0 < 0 || y0 < 0 || x1 >= Width(img) || y1 >= Height(img) then 0.0
    else
      var dx := x - x0 as real;
      var dy := y - y0 as real;
      img[y0][x0] * (1.0 - dx) * (1.0 - dy)
      + img[y0][x1] * dx * (1.0 - dy)
      + img[y1][x0] * (1.0 - dx) * dy
      + img[y1][x1] * dx * dy
  }

  /** Entry (i, j) of the window centred on (cx, cy): the sample at offset
      (j - half, i - half) when that point lies in [0, width) x [0, height),
      and 0 otherwise. */
  function SubsetEntry(img: seq<seq<real>>, cx: real, cy: real, half: int, i: int, j: int): real
    requires Rectangular(img)
  {
    var x := cx + (j - half) as real;
    var y := cy + (i - half) as real;
    if 0.0 <= x < Width(img) as real && 0.0 <= y < Height(img) as real then Bilinear(img, x, y) else 0.0
  }

  /** The size x size window centred on (cx, cy). */
  function Subset(img: seq<seq<real>>, cx: real, cy: real, size: nat, half: int): (w: seq<seq<real>>)
    requires Rectangular(img)
    ensures IsMatrix(w, size, size)
    ensures forall i, j :: 0 <= i < size && 0 <= j < size ==> w[i][j] == SubsetEntry(img, cx, cy, half, i, j)
  {
    seq(size, i requires 0 <= i < size =>
      seq(size, j requires 0 <= j < size => SubsetEntry(img, cx, cy, half, i, j)))
  }

  // ---------------------------------------------------------------------
  // Properties of the sampler

  /** The hard-zero boundary rule. */
  lemma BilinearOutsideIsZero(img: seq<seq<real>>, x: real, y: real)
    requires Rectangular(img)
    requires x.Floor < 0 || y.Floor < 0 || x.Floor + 1 >= Width(img) || y.Floor + 1 >= Height(img)
    ensures Bilinear(img, x, y) == 0.0
  {
  }

  /** At an integer coordinate with a right and a lower neighbour, the sample
      is exactly the pixel. */
  lemma BilinearAtPixel(img: seq<seq<real>>, px: int, py: int)
    requires Rectangular(img)
    requires 0 <= px <= Width(img) - 2 && 0 <= py <= Height(img) - 2
    ensures Bilinear(img, px as real, py as real) == img[py][px]
  {
    assert (px as real).Floor == px && (py as real).Floor == py;
  }

  /** On the last column the sample is 0, even at an integer coordinate
      where the pixel itself exists. */
  lemma BilinearOnLastColumnIsZero(img: seq<seq<real>>, px: int, y: real)
    requires Rectangular(img)
    requires px == Width(img) - 1
    ensures Bilinear(img, px as real, y) == 0.0
  {
    assert (px as real).Floor == px;
  }

  /** Likewise on the last row. */
  lemma BilinearOnLastRowIsZero(img: seq<seq<real>>, x: real, py: int)
    requires Rectangular(img)
    requires py == Height(img) - 1
    ensures Bilinear(img, x, py as real) == 0.0
  {
    assert (py as real).Floor == py;
  }

  /** Interpolation never leaves the range of the pixels (given that 0, the
      boundary value, is in that range too). */
  lemma BilinearWithinRange(img: seq<seq<real>>, x: real, y: real, lo: real, hi: real)
    requires Rectangular(img)
    requires lo <= 0.0 <= hi
    requires forall i, j :: 0 <= i < Height(img) && 0 <= j < Width(img) ==> lo <= img[i][j] <= hi
    ensures lo <= Bilinear(img, x, y) <= hi
  {
    var x0, y0 := x.Floor, y.Floor;
    if !(x0 < 0 || y0 < 0 || x0 + 1 >= Width(img) || y0 + 1 >= Height(img)) {
      ConvexCombination(img[y0][x0], img[y0][x0 + 1], img[y0 + 1][x0], img[y0 + 1][x0 + 1],
                        x - x0 as real, y - y0 as real, lo, hi);
    }
  }

  /** The four-point interpolation formula is a convex combination: it is
      two interpolations along x followed by one along y. */
  lemma ConvexCombination(p00: real, p01: real, p10: real, p11: real, dx: real, dy: real, lo: real, hi: real)
    requires 0.0 <= dx <= 1.0 && 0.0 <= dy <= 1.0
    requires lo <= p00 <= hi && lo <= p01 <= hi && lo <= p10 <= hi && lo <= p11 <= hi
    ensures lo <= p00 * (1.0 - dx) * (1.0 - dy) + p01 * dx * (1.0 - dy) + p10 * (1.0 - dx) * dy + p11 * dx * dy <= hi
  {
    LerpWithinRange(p00, p01, dx, lo, hi);
    LerpWithinRange(p10, p11, dx, lo, hi);
    LerpWithinRange(Lerp(p00, p01, dx), Lerp(p10, p11, dx), dy, lo, hi);
    assert p00 * (1.0 - dx) * (1.0 - dy) + p01 * dx * (1.0 - dy) + p10 * (1.0 - dx) * dy + p11 * dx * dy
        == Lerp(Lerp(p00, p01, dx), Lerp(p10, p11, dx), dy);
  }

  /** Linear interpolation between a and b. */
  function Lerp(a: real, b: real, t: real): real
  {
    a * (1.0 - t) + b * t
  }

  lemma LerpWithinRange(a: real, b: real, t: real, lo: real, hi: real)
    requires 0.0 <= t <= 1.0 && lo <= a <= hi && lo <= b <= hi
    ensures lo <= Lerp(a, b, t) <= hi
  {
    ProductNonNegative(a - lo, 1.0 - t);
    ProductNonNegative(b - lo, t);
    ProductNonNegative(hi - a, 1.0 - t);
    ProductNonNegative(hi - b, t);
    assert Lerp(a, b, t) - lo == (a - lo) * (1.0 - t) + (b - lo) * t;
    assert hi - Lerp(a, b, t) == (hi - a) * (1.0 - t) + (hi - b) * t;
  }

  lemma ProductNonNegative(a: real, b: real)
    requires a >= 0.0 && b >= 0.0
    ensures a * b >= 0.0
  {
  }

  /** The boundary test of the window never cuts a window centred on an
      integer point at least `half` away from every edge: each of its
      entries is the bilinear sample. */
  lemma SubsetInsideMargin(img: seq<seq<real>>, cx: int, cy: int, half: nat, i: nat, j: nat)
    requires Rectangular(img)
    requires half <= cx < Width(img) - half && half <= cy < Height(img) - half
    requires i <= 2 * half && j <= 2 * half
    ensures SubsetEntry(img, cx as real, cy as real, half, i, j)
         == Bilinear(img, (cx + j - half) as real, (cy + i - half) as real)
  {
    assert cx as real + (j - half) as real == (cx + j - half) as real;
    assert cy as real + (i - half) as real == (cy + i - half) as real;
  }

  /** Inside the margin and away from the last row and column, the window
      entry is the pixel itself. */
  lemma SubsetAtPixel(img: seq<seq<real>>, cx: int, cy: int, half: nat, i: nat, j: nat)
    requires Rectangular(img)
    requires half <= cx < Width(img) - half && half <= cy < Height(img) - half
    requires i <= 2 * half && j <= 2 * half
    requires cx + j - half <= Width(img) - 2 && cy + i - half <= Height(img) - 2
    ensures SubsetEntry(img, cx as real, cy as real, half, i, j) == img[cy + i - half][cx + j - half]
  {
    SubsetInsideMargin(img, cx, cy, half, i, j);
    BilinearAtPixel(img, cx + j - half, cy + i - half);
  }

  /** A window centred on an integer column that reaches column width - 1
      holds zeros in that column. */
  lemma SubsetZeroOnLastColumn(img: seq<seq<real>>, cx: int, cy: real, half: int, i: int, j: int)
    requires Rectangular(img)
    requires cx + j - half == Width(img) - 1
    ensures SubsetEntry(img, cx as real, cy, half, i, j) == 0.0
  {
    assert cx as real + (j - half) as real == (Width(img) - 1) as real;
    BilinearOnLastColumnIsZero(img, Width(img) - 1, cy + (i - half) as real);
  }
}
