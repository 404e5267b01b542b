/** The correlation engine (`DigitalImageCorrelation`): window-size
    normalisation, the single-point solve, the sampling grid with the
    row-major assembly of U, V and C, and the reliability masking of the
    post-processing. */
module DicAlgorithm {
  import opened Optional
  import opened Numerics
  import opened Matrices
  import opened Foreign
  import opened DicImages
  import opened DicSampling
  import opened DicSimilarity

  /** The box bounds of the search, in pixels, for dx and for dy. */
  const SearchBounds: (Interval, Interval) := (Interval(-15.0, 15.0), Interval(-15.0, 15.0))
  const GradientTolerance: real := 0.00000001
  const ObjectiveTolerance: real := 0.00000001
  const ConvergenceTolerance: real := 0.000001

  /** The parameters the engine keeps after construction. */
  datatype Settings = Settings(subsetSize: int, halfSubset: int, step: int, maxIter: int, tolerance: real)
  {
    predicate Valid()
    {
      subsetSize % 2 == 1 && 21 <= subsetSize <= 31 && halfSubset == subsetSize / 2
    }
  }

  /** What construction makes of the caller's parameters: an even window
      size is made odd by adding one, then the size is clamped into
      [21, 31]; step and max_iter are kept as given. */
  function Configure(subsetSize: int, step: int, maxIter: int): (s: Settings)
    ensures s.Valid() && 10 <= s.halfSubset <= 15
    ensures subsetSize % 2 == 1 && 21 <= subsetSize <= 31 ==> s.subsetSize == subsetSize
    ensures subsetSize % 2 == 0 && 21 <= subsetSize <= 30 ==> s.subsetSize == subsetSize + 1
    ensures subsetSize < 21 ==> s.subsetSize == 21
    ensures subsetSize > 31 ==> s.subsetSize == 31
    ensures s.step == step && s.maxIter == maxIter && s.tolerance == ConvergenceTolerance
  {
    var odd := if subsetSize % 2 == 1 then subsetSize else subsetSize + 1;
    var size := if odd < 21 then 21 else if odd > 31 then 31 else odd;
    Settings(size, size / 2, step, maxIter, ConvergenceTolerance)
  }

  /** numpy's `arange(start, stop, step)` on integers: from start in steps
      of `step` up to (or, for a negative step, down to) stop, exclusive. */
  function ARange(start: int, stop: int, step: int): seq<int>
    requires step != 0
    decreases if step > 0 then stop - start else start - stop
  {
    if (step > 0 && start < stop) || (step < 0 && start > stop) then [start] + ARange(start + step, stop, step)
    else []
  }

  /** The negated score of the reference window against the window of img2
      at (x + dx, y + dy): the function handed to the minimiser. */
  function ObjectiveAt(reference: seq<seq<real>>, img2: seq<seq<real>>, x: int, y: int,
                     cfg: Settings, sqrt: real -> real): (real, real) -> real
    requires cfg.Valid() && IsMatrix(reference, cfg.subsetSize, cfg.subsetSize)
    requires Rectangular(img2) && IsSqrt(sqrt)
  {
    (dx: real, dy: real) =>
      -Zncc(reference, Subset(img2, x as real + dx, y as real + dy, cfg.subsetSize, cfg.halfSubset), sqrt)
  }

  /** The result of one grid-point solve. */
  datatype Displacement = Displacement(dx: real, dy: real, correlation: real)

  /** The solve at (x, y): the reference window is taken once from img1,
      the minimiser searches the box from the guess, and the correlation is
      the negated objective at the point it returns. */
  function DisplacementAt(img1: seq<seq<real>>, img2: seq<seq<real>>, x: int, y: int, guess: (real, real),
                          cfg: Settings, lib: Libraries): (d: Displacement)
    requires cfg.Valid() && Rectangular(img1) && Rectangular(img2) && lib.Valid()
    ensures -15.0 <= d.dx <= 15.0 && -15.0 <= d.dy <= 15.0
  {
    var reference := Subset(img1, x as real, y as real, cfg.subsetSize, cfg.halfSubset);
    var result := lib.minimize(ObjectiveAt(reference, img2, x, y, cfg, lib.sqrt), guess, SearchBounds,
                               MinimizeOptions(cfg.maxIter, GradientTolerance, ObjectiveTolerance, cfg.tolerance));
    Displacement(result.x.0, result.x.1, -result.fun)
  }

  /** The reported correlation is the score of the reference window against
      the window of img2 displaced by the returned (dx, dy). */
  lemma DisplacementScore(img1: seq<seq<real>>, img2: seq<seq<real>>, x: int, y: int, guess: (real, real),
                          cfg: Settings, lib: Libraries)
    requires cfg.Valid() && Rectangular(img1) && Rectangular(img2) && lib.Valid()
    ensures var d := DisplacementAt(img1, img2, x, y, guess, cfg, lib);
            d.correlation
            == Zncc(Subset(img1, x as real, y as real, cfg.subsetSize, cfg.halfSubset),
                    Subset(img2, x as real + d.dx, y as real + d.dy, cfg.subsetSize, cfg.halfSubset), lib.sqrt)
  {
  }

  /** The rows' y and the columns' x of the sampling grid of an image. */
  function GridRows(img: seq<seq<real>>, cfg: Settings): seq<int>
    requires cfg.step != 0
  {
    ARange(cfg.halfSubset, Height(img) - cfg.halfSubset, cfg.step)
  }

  function GridColumns(img: seq<seq<real>>, cfg: Settings): seq<int>
    requires cfg.step != 0
  {
    ARange(cfg.halfSubset, Width(img) - cfg.halfSubset, cfg.step)
  }

  /** The three arrays of a displacement field, as grid values. */
  datatype Field = Field(u: seq<seq<real>>, v: seq<seq<real>>, c: seq<seq<real>>)

  /** Cell (i, j) of every array holds the solve at (xs[j], ys[i]) from the
      guess (0, 0), whatever the other cells hold. */
  function SolvedField(img1: seq<seq<real>>, img2: seq<seq<real>>, cfg: Settings, lib: Libraries): (f: Field)
    requires cfg.Valid() && cfg.step != 0 && Rectangular(img1) && Rectangular(img2) && lib.Valid()
    ensures var rows, cols := |GridRows(img1, cfg)|, |GridColumns(img1, cfg)|;
            IsMatrix(f.u, rows, cols) && IsMatrix(f.v, rows, cols) && IsMatrix(f.c, rows, cols)
    ensures Rectangular(f.u) && IsMatrix(f.v, Height(f.u), Width(f.u)) && IsMatrix(f.c, Height(f.u), Width(f.u))
  {
    var ys, xs := GridRows(img1, cfg), GridColumns(img1, cfg);
    Field(
      seq(|ys|, i requires 0 <= i < |ys| => seq(|xs|, j requires 0 <= j < |xs| =>
        DisplacementAt(img1, img2, xs[j], ys[i], (0.0, 0.0), cfg, lib).dx)),
      seq(|ys|, i requires 0 <= i < |ys| => seq(|xs|, j requires 0 <= j < |xs| =>
        DisplacementAt(img1, img2, xs[j], ys[i], (0.0, 0.0), cfg, lib).dy)),
      seq(|ys|, i requires 0 <= i < |ys| => seq(|xs|, j requires 0 <= j < |xs| =>
        DisplacementAt(img1, img2, xs[j], ys[i], (0.0, 0.0), cfg, lib).correlation)))
  }

  /** Arrays whose every cell holds the solve at its grid point make up the
      solved field. */
  lemma FieldOfCells(U: array2<real>, V: array2<real>, C: array2<real>,
                     img1: seq<seq<real>>, img2: seq<seq<real>>, cfg: Settings, lib: Libraries)
    requires cfg.Valid() && cfg.step != 0 && Rectangular(img1) && Rectangular(img2) && lib.Valid()
    requires var rows, cols := |GridRows(img1, cfg)|, |GridColumns(img1, cfg)|;
             U.Length0 == V.Length0 == C.Length0 == rows && U.Length1 == V.Length1 == C.Length1 == cols
    requires forall i, j :: 0 <= i < U.Length0 && 0 <= j < U.Length1 ==>
               Displacement(U[i, j], V[i, j], C[i, j])
               == DisplacementAt(img1, img2, GridColumns(img1, cfg)[j], GridRows(img1, cfg)[i], (0.0, 0.0), cfg, lib)
    ensures Field(GridOf(U), GridOf(V), GridOf(C)) == SolvedField(img1, img2, cfg, lib)
  {
    var f := SolvedField(img1, img2, cfg, lib);
    SameEntries(GridOf(U), f.u, U.Length0, U.Length1);
    SameEntries(GridOf(V), f.v, U.Length0, U.Length1);
    SameEntries(GridOf(C), f.c, U.Length0, U.Length1);
  }

  /** One row of U (or V) with every cell whose correlation does not exceed
      the threshold replaced by the missing marker. */
  function MaskRow(u: seq<real>, c: seq<real>, minCorrelation: real): (m: seq<Option<real>>)
    requires |c| == |u|
    ensures |m| == |u|
  {
    seq(|u|, j requires 0 <= j < |u| => if c[j] > minCorrelation then Some(u[j]) else None)
  }

  function Masked(u: seq<seq<real>>, c: seq<seq<real>>, minCorrelation: real): (m: seq<seq<Option<real>>>)
    requires Rectangular(u) && IsMatrix(c, Height(u), Width(u))
    ensures IsMatrix(m, Height(u), Width(u))
  {
    seq(|u|, i requires 0 <= i < |u| => MaskRow(u[i], c[i], minCorrelation))
  }

  /** sqrt(U^2 + V^2), missing wherever U or V is. The root is taken of a
      sum of two squares, so a present magnitude is never negative. */
  function Magnitude(u: Option<real>, v: Option<real>, sqrt: real -> real): (m: Option<real>)
    ensures m.Some? <==> u.Some? && v.Some?
    ensures IsSqrt(sqrt) && m.Some? ==> m.value >= 0.0
  {
    if u.Some? && v.Some? then
      assert u.value * u.value + v.value * v.value >= 0.0;
      Some(sqrt(u.value * u.value + v.value * v.value))
    else None
  }

  function Magnitudes(u: seq<seq<Option<real>>>, v: seq<seq<Option<real>>>, sqrt: real -> real): (m: seq<seq<Option<real>>>)
    requires Rectangular(u) && IsMatrix(v, Height(u), Width(u))
    ensures IsMatrix(m, Height(u), Width(u))
  {
    seq(|u|, i requires 0 <= i < |u| =>
      seq(|u[i]|, j requires 0 <= j < |u[i]| => Magnitude(u[i][j], v[i][j], sqrt)))
  }

  /** The present values of a sequence of cells, in order. */
  function Present(s: seq<Option<real>>): (r: seq<real>)
    ensures |r| <= |s|
  {
    if |s| == 0 then []
    else if s[0].Some? then [s[0].value] + Present(s[1..])
    else Present(s[1..])
  }

  /** The non-missing entries of a grid in row-major order
      (numpy's `m[~np.isnan(m)]`). */
  function ValidValues(g: seq<seq<Option<real>>>): seq<real>
  {
    Present(Flatten(g))
  }

  /** The pair of filtered arrays, or nothing when no filtered magnitude is
      present (the source then falls off the end of the function and returns
      None). */
  function PostProcessed(u: seq<seq<real>>, v: seq<seq<real>>, c: seq<seq<real>>,
                         minCorrelation: real, lib: Libraries): Option<(seq<seq<Option<real>>>, seq<seq<Option<real>>>)>
    requires Rectangular(u) && IsMatrix(v, Height(u), Width(u)) && IsMatrix(c, Height(u), Width(u))
    requires lib.Valid()
  {
    var uf := lib.medianFilter(Masked(u, c, minCorrelation));
    var vf := lib.medianFilter(Masked(v, c, minCorrelation));
    if |ValidValues(Magnitudes(uf, vf, lib.sqrt))| > 0 then Some((uf, vf)) else None
  }

  // ---------------------------------------------------------------------
  // Properties of the grid

  /** For a positive step, arange lists start, start + step, ... and stops
      at the first value that reaches stop. */
  lemma {:induction false} ARangePositiveStep(start: int, stop: int, step: int)
    requires step > 0
    decreases stop - start
    ensures var r := ARange(start, stop, step);
            && (forall k :: 0 <= k < |r| ==> r[k] == start + k * step && start <= r[k] < stop)
            && start + |r| * step >= stop
  {
    if start < stop {
      ARangePositiveStep(start + step, stop, step);
      var r, t := ARange(start, stop, step), ARange(start + step, stop, step);
      assert r == [start] + t;
      forall k | 0 <= k < |r|
        ensures r[k] == start + k * step && start <= r[k] < stop
      {
        if k > 0 {
          assert r[k] == t[k - 1];
          assert (start + step) + (k - 1) * step == start + k * step;
        }
      }
      assert (start + step) + |t| * step == start + |r| * step;
    }
  }

  /** With a positive step every grid point lies at least a half window
      from every edge of img1, so its whole window lies inside the image. */
  lemma GridInsideMargin(img: seq<seq<real>>, cfg: Settings)
    requires cfg.step > 0
    ensures forall y :: y in GridRows(img, cfg) ==> cfg.halfSubset <= y && y + cfg.halfSubset < Height(img)
    ensures forall x :: x in GridColumns(img, cfg) ==> cfg.halfSubset <= x && x + cfg.halfSubset < Width(img)
  {
    ARangePositiveStep(cfg.halfSubset, Height(img) - cfg.halfSubset, cfg.step);
    ARangePositiveStep(cfg.halfSubset, Width(img) - cfg.halfSubset, cfg.step);
  }

  // ---------------------------------------------------------------------
  // Properties of the post-processing

  function CountMissing(s: seq<Option<real>>): nat
  {
    if |s| == 0 then 0 else (if s[0].None? then 1 else 0) + CountMissing(s[1..])
  }

  lemma {:induction false} CountMissingConcat(a: seq<Option<real>>, b: seq<Option<real>>)
    ensures CountMissing(a + b) == CountMissing(a) + CountMissing(b)
  {
    if |a| > 0 {
      assert (a + b)[0] == a[0] && (a + b)[1..] == a[1..] + b;
      CountMissingConcat(a[1..], b);
    } else {
      assert a + b == b;
    }
  }

  lemma {:induction false} MaskRowMissing(u: seq<real>, c: seq<real>, minCorrelation: real)
    requires |c| == |u|
    ensures CountMissing(MaskRow(u, c, minCorrelation)) == |u| - CountAbove(c, minCorrelation)
  {
    if |u| > 0 {
      MaskRowMissing(u[1..], c[1..], minCorrelation);
      assert MaskRow(u, c, minCorrelation)[1..] == MaskRow(u[1..], c[1..], minCorrelation);
    }
  }

  /** Before filtering, a cell is missing exactly when its correlation does
      not exceed the threshold, and a present cell keeps its value. */
  lemma MaskedCell(u: seq<seq<real>>, c: seq<seq<real>>, minCorrelation: real, i: nat, j: nat)
    requires Rectangular(u) && IsMatrix(c, Height(u), Width(u))
    requires i < Height(u) && j < Width(u)
    ensures Masked(u, c, minCorrelation)[i][j].None? <==> c[i][j] <= minCorrelation
    ensures Masked(u, c, minCorrelation)[i][j].Some? ==> Masked(u, c, minCorrelation)[i][j].value == u[i][j]
  {
  }

  /** Missing cells and cells above the threshold together make up the
      grid. */
  lemma {:induction false} MaskedSplit(u: seq<seq<real>>, c: seq<seq<real>>, minCorrelation: real,
                                       rows: nat, cols: nat)
    requires IsMatrix(u, rows, cols) && IsMatrix(c, rows, cols)
    ensures CountMissing(Flatten(Masked(u, c, minCorrelation))) + CountAbove(Flatten(c), minCorrelation) == |Flatten(c)|
  {
    if rows > 0 {
      var m := Masked(u, c, minCorrelation);
      assert m[1..] == Masked(u[1..], c[1..], minCorrelation);
      MaskedSplit(u[1..], c[1..], minCorrelation, rows - 1, cols);
      MaskRowMissing(u[0], c[0], minCorrelation);
      CountMissingConcat(m[0], Flatten(m[1..]));
      CountAboveConcat(c[0], Flatten(c[1..]), minCorrelation);
    }
  }

  /** Before filtering, the missing cells are exactly as many as the cells
      whose correlation does not exceed the threshold. */
  lemma MaskedMissingCount(u: seq<seq<real>>, c: seq<seq<real>>, minCorrelation: real, rows: nat, cols: nat)
    requires IsMatrix(u, rows, cols) && IsMatrix(c, rows, cols)
    ensures CountMissing(Flatten(Masked(u, c, minCorrelation))) == rows * cols - CountAbove(Flatten(c), minCorrelation)
  {
    MaskedSplit(u, c, minCorrelation, rows, cols);
    FlattenLength(c, rows, cols);
  }

  lemma {:induction false} PresentNonEmpty(s: seq<Option<real>>)
    ensures |Present(s)| > 0 <==> exists k :: 0 <= k < |s| && s[k].Some?
  {
    if |s| > 0 {
      PresentNonEmpty(s[1..]);
      if s[0].None? {
        if exists k :: 0 <= k < |s| && s[k].Some? {
          var k :| 0 <= k < |s| && s[k].Some?;
          assert s[1..][k - 1].Some?;
        }
        if exists k :: 0 <= k < |s[1..]| && s[1..][k].Some? {
          var k :| 0 <= k < |s[1..]| && s[1..][k].Some?;
          assert s[k + 1].Some?;
        }
      }
    }
  }

  lemma {:induction false} PresentElements(s: seq<Option<real>>)
    ensures forall x :: x in Present(s) ==> Some(x) in s
  {
    if |s| > 0 {
      PresentElements(s[1..]);
      assert forall x :: Some(x) in s[1..] ==> Some(x) in s;
    }
  }

  /** Filtered magnitudes are never negative. */
  lemma ValidMagnitudesNonNegative(u: seq<seq<Option<real>>>, v: seq<seq<Option<real>>>, sqrt: real -> real)
    requires IsSqrt(sqrt) && Rectangular(u) && IsMatrix(v, Height(u), Width(u))
    ensures forall x :: x in ValidValues(Magnitudes(u, v, sqrt)) ==> x >= 0.0
  {
    var g := Magnitudes(u, v, sqrt);
    forall x | x in ValidValues(g)
      ensures x >= 0.0
    {
      PresentElements(Flatten(g));
      FlattenMember(g, Some(x));
    }
  }

  /** A grid has a present cell exactly when its row-major list of present
      values is non-empty. */
  lemma ValidValuesNonEmpty(g: seq<seq<Option<real>>>, rows: nat, cols: nat)
    requires IsMatrix(g, rows, cols)
    ensures |ValidValues(g)| > 0 <==> exists i, j :: 0 <= i < rows && 0 <= j < cols && g[i][j].Some?
  {
    PresentNonEmpty(Flatten(g));
    if |ValidValues(g)| > 0 {
      var k :| 0 <= k < |Flatten(g)| && Flatten(g)[k].Some?;
      FlattenMember(g, Flatten(g)[k]);
    }
    if exists i, j :: 0 <= i < rows && 0 <= j < cols && g[i][j].Some? {
      var i, j :| 0 <= i < rows && 0 <= j < cols && g[i][j].Some?;
      FlattenAt(g, rows, cols, i, j);
    }
  }

  /** Post-processing yields the filtered pair exactly when some cell is
      present in both filtered arrays; so it yields nothing for an empty
      grid. */
  lemma PostProcessedSomeIff(u: seq<seq<real>>, v: seq<seq<real>>, c: seq<seq<real>>,
                             minCorrelation: real, lib: Libraries)
    requires Rectangular(u) && IsMatrix(v, Height(u), Width(u)) && IsMatrix(c, Height(u), Width(u))
    requires lib.Valid()
    ensures var uf := lib.medianFilter(Masked(u, c, minCorrelation));
            var vf := lib.medianFilter(Masked(v, c, minCorrelation));
            PostProcessed(u, v, c, minCorrelation, lib).Some?
            <==> exists i, j :: 0 <= i < Height(u) && 0 <= j < Width(u) && uf[i][j].Some? && vf[i][j].Some?
    ensures PostProcessed(u, v, c, minCorrelation, lib).Some? ==> Height(u) > 0 && Width(u) > 0
    ensures var r := PostProcessed(u, v, c, minCorrelation, lib);
            r.Some? ==> IsMatrix(r.value.0, Height(u), Width(u)) && IsMatrix(r.value.1, Height(u), Width(u))
  {
    var uf := lib.medianFilter(Masked(u, c, minCorrelation));
    var vf := lib.medianFilter(Masked(v, c, minCorrelation));
    var g := Magnitudes(uf, vf, lib.sqrt);
    ValidValuesNonEmpty(g, Height(u), Width(u));
    assert forall i, j :: 0 <= i < Height(u) && 0 <= j < Width(u) ==>
             (g[i][j].Some? <==> uf[i][j].Some? && vf[i][j].Some?);
  }

  /** `a.copy()` into an array whose cells may be missing. */
  method CopyToOptional(a: array2<real>) returns (b: array2<Option<real>>)
    ensures fresh(b) && b.Length0 == a.Length0 && b.Length1 == a.Length1
    ensures forall i, j :: 0 <= i < a.Length0 && 0 <= j < a.Length1 ==> b[i, j] == Some(a[i, j])
  {
    b := new Option<real>[a.Length0, a.Length1]((i, j) => None);
    for i := 0 to a.Length0
      invariant forall p, q :: 0 <= p < i && 0 <= q < a.Length1 ==> b[p, q] == Some(a[p, q])
    {
      for j := 0 to a.Length1
        invariant forall p, q :: 0 <= p < i && 0 <= q < a.Length1 ==> b[p, q] == Some(a[p, q])
        invariant forall q :: 0 <= q < j ==> b[i, q] == Some(a[i, q])
      {
        b[i, j] := Some(a[i, j]);
      }
    }
  }

  /** `b[~(c > minCorrelation)] = nan`, in place. */
  method MaskUnreliable(b: array2<Option<real>>, c: array2<real>, minCorrelation: real)
    requires c.Length0 == b.Length0 && c.Length1 == b.Length1
    modifies b
    ensures forall i, j :: 0 <= i < b.Length0 && 0 <= j < b.Length1 ==>
              b[i, j] == if c[i, j] > minCorrelation then old(b[i, j]) else None
  {
    for i := 0 to b.Length0
      invariant forall p, q :: 0 <= p < b.Length0 && 0 <= q < b.Length1 ==>
                  b[p, q] == if p < i && !(c[p, q] > minCorrelation) then None else old(b[p, q])
    {
      for j := 0 to b.Length1
        invariant forall p, q :: 0 <= p < b.Length0 && 0 <= q < b.Length1 ==>
                    b[p, q] == if (p < i || (p == i && q < j)) && !(c[p, q] > minCorrelation) then None else old(b[p, q])
      {
        if !(c[i, j] > minCorrelation) {
          b[i, j] := None;
        }
      }
    }
  }

  /** An array holding U's cells where the correlation exceeds the threshold
      and nothing elsewhere is the masked grid. */
  lemma MaskedArray(b: array2<Option<real>>, u: array2<real>, c: array2<real>, minCorrelation: real)
    requires b.Length0 == u.Length0 == c.Length0 && b.Length1 == u.Length1 == c.Length1
    requires forall i, j :: 0 <= i < b.Length0 && 0 <= j < b.Length1 ==>
               b[i, j] == if c[i, j] > minCorrelation then Some(u[i, j]) else None
    ensures GridOf(b) == Masked(GridOf(u), GridOf(c), minCorrelation)
  {
    SameEntries(GridOf(b), Masked(GridOf(u), GridOf(c), minCorrelation), b.Length0, b.Length1);
  }

  class DigitalImageCorrelation {
    const subsetSize: int
    const halfSubset: int
    const step: int
    const maxIter: int
    const tolerance: real

    function Config(): Settings
    {
      Settings(subsetSize, halfSubset, step, maxIter, tolerance)
    }

    predicate Valid()
    {
      Config().Valid()
    }

    /** An even window size is made odd, then the size is clamped into
        [21, 31]; step and max_iter are kept as given. */
    constructor (subsetSize: int, step: int, maxIter: int)
      ensures Valid() && Config() == Configure(subsetSize, step, maxIter)
      ensures this.subsetSize % 2 == 1 && 21 <= this.subsetSize <= 31
      ensures halfSubset == this.subsetSize / 2 && 10 <= halfSubset <= 15
      ensures this.step == step && this.maxIter == maxIter
    {
      var size := if subsetSize % 2 == 1 then subsetSize else subsetSize + 1;
      if size < 21 {
        size := 21;
      } else if size > 31 {
        size := 31;
      }
      this.subsetSize := size;
      halfSubset := size / 2;
      this.step := step;
      this.maxIter := maxIter;
      tolerance := ConvergenceTolerance;
    }

    /** The window centred on (cx, cy), filled row by row into a zero
        matrix; rows outside the image are skipped. */
    method GetSubsetInterpolated(img: seq<seq<real>>, cx: real, cy: real) returns (subset: array2<real>)
      requires Valid() && Rectangular(img)
      ensures fresh(subset) && subset.Length0 == subsetSize && subset.Length1 == subsetSize
      ensures GridOf(subset) == Subset(img, cx, cy, subsetSize, halfSubset)
    {
      subset := new real[subsetSize, subsetSize]((i, j) => 0.0);
      for i := 0 to subsetSize
        invariant forall p, q :: 0 <= p < i && 0 <= q < subsetSize ==>
                    subset[p, q] == SubsetEntry(img, cx, cy, halfSubset, p, q)
        invariant forall p, q :: i <= p < subsetSize && 0 <= q < subsetSize ==> subset[p, q] == 0.0
      {
        var y := cy + (i - halfSubset) as real;
        if y < 0.0 || y >= Height(img) as real {
          continue;
        }
        for j := 0 to subsetSize
          invariant forall p, q :: 0 <= p < i && 0 <= q < subsetSize ==>
                      subset[p, q] == SubsetEntry(img, cx, cy, halfSubset, p, q)
          invariant forall q :: 0 <= q < j ==> subset[i, q] == SubsetEntry(img, cx, cy, halfSubset, i, q)
          invariant forall p, q :: (i < p < subsetSize && 0 <= q < subsetSize) || (p == i && j <= q < subsetSize) ==>
                      subset[p, q] == 0.0
        {
          var x := cx + (j - halfSubset) as real;
          if 0.0 <= x < Width(img) as real && 0.0 <= y < Height(img) as real {
            subset[i, j] := Bilinear(img, x, y);
          }
        }
      }
      SameEntries(GridOf(subset), Subset(img, cx, cy, subsetSize, halfSubset), subsetSize, subsetSize);
    }

    /** One grid-point solve. */
    method ComputeDisplacement(img1: seq<seq<real>>, img2: seq<seq<real>>, x: int, y: int,
                               initialGuess: (real, real), lib: Libraries)
      returns (dx: real, dy: real, correlation: real)
      requires Valid() && Rectangular(img1) && Rectangular(img2) && lib.Valid()
      ensures Displacement(dx, dy, correlation) == DisplacementAt(img1, img2, x, y, initialGuess, Config(), lib)
      ensures -15.0 <= dx <= 15.0 && -15.0 <= dy <= 15.0
    {
      var subsetRef := GetSubsetInterpolated(img1, x as real, y as real);
      var reference := GridOf(subsetRef);
      var objective := ObjectiveAt(reference, img2, x, y, Config(), lib.sqrt);
      var result := lib.minimize(objective, initialGuess, SearchBounds,
                                 MinimizeOptions(maxIter, GradientTolerance, ObjectiveTolerance, tolerance));
      dx, dy := result.x.0, result.x.1;
      correlation := -result.fun;
    }

    /** Preprocess both images, then solve the grid over img1's interior. */
    method ComputeDisplacementFieldSequential(raw1: RawImage, raw2: RawImage, lib: Libraries)
      returns (U: array2<real>, V: array2<real>, C: array2<real>, xs: seq<int>, ys: seq<int>,
               img1: seq<seq<real>>, img2: seq<seq<real>>)
      requires Valid() && lib.Valid() && step != 0
      requires WellFormed(raw1) && WellFormed(raw2)
      requires HasPixels(Grayscale(raw1)) && HasPixels(Grayscale(raw2))
      ensures (img1, img2) == PreprocessImages(raw1, raw2)
      ensures ys == GridRows(img1, Config()) && xs == GridColumns(img1, Config())
      ensures fresh(U) && fresh(V) && fresh(C)
      ensures U.Length0 == V.Length0 == C.Length0 == |ys| && U.Length1 == V.Length1 == C.Length1 == |xs|
      ensures forall i, j :: 0 <= i < |ys| && 0 <= j < |xs| ==>
                Displacement(U[i, j], V[i, j], C[i, j])
                == DisplacementAt(img1, img2, xs[j], ys[i], (0.0, 0.0), Config(), lib)
    {
      var images := PreprocessImages(raw1, raw2);
      img1, img2 := images.0, images.1;
      U, V, C, xs, ys := SolveGrid(img1, img2, lib);
    }

    /** Lay the grid over img1's interior and fill U, V and C row by row
        with independent solves from (0, 0). */
    method SolveGrid(img1: seq<seq<real>>, img2: seq<seq<real>>, lib: Libraries)
      returns (U: array2<real>, V: array2<real>, C: array2<real>, xs: seq<int>, ys: seq<int>)
      requires Valid() && lib.Valid() && step != 0
      requires Rectangular(img1) && Rectangular(img2)
      ensures ys == GridRows(img1, Config()) && xs == GridColumns(img1, Config())
      ensures fresh(U) && fresh(V) && fresh(C)
      ensures U.Length0 == V.Length0 == C.Length0 == |ys| && U.Length1 == V.Length1 == C.Length1 == |xs|
      ensures forall i, j :: 0 <= i < |ys| && 0 <= j < |xs| ==>
                Displacement(U[i, j], V[i, j], C[i, j])
                == DisplacementAt(img1, img2, xs[j], ys[i], (0.0, 0.0), Config(), lib)
    {
      var cfg := Config();
      ys, xs := GridRows(img1, cfg), GridColumns(img1, cfg);
      var rows, cols := |ys|, |xs|;
      U := new real[rows, cols]((i, j) => 0.0);
      V := new real[rows, cols]((i, j) => 0.0);
      C := new real[rows, cols]((i, j) => 0.0);
      for i := 0 to rows
        invariant forall p, q :: 0 <= p < i && 0 <= q < cols ==>
                    Displacement(U[p, q], V[p, q], C[p, q]) == DisplacementAt(img1, img2, xs[q], ys[p], (0.0, 0.0), cfg, lib)
      {
        SolveRow(img1, img2, lib, U, V, C, xs, ys, i);
      }
    }

    /** The inner loop of the field computation: fill row i of U, V and C
        with the displacements at (xs[j], ys[i]), leaving the other rows as
        they were. */
    method SolveRow(img1: seq<seq<real>>, img2: seq<seq<real>>, lib: Libraries,
                    U: array2<real>, V: array2<real>, C: array2<real>, xs: seq<int>, ys: seq<int>, i: nat)
      requires Valid() && lib.Valid() && Rectangular(img1) && Rectangular(img2)
      requires U != V && V != C && U != C
      requires U.Length0 == V.Length0 == C.Length0 == |ys| && U.Length1 == V.Length1 == C.Length1 == |xs|
      requires i < |ys|
      modifies U, V, C
      ensures forall q :: 0 <= q < |xs| ==>
                Displacement(U[i, q], V[i, q], C[i, q]) == DisplacementAt(img1, img2, xs[q], ys[i], (0.0, 0.0), Config(), lib)
      ensures forall p, q :: 0 <= p < |ys| && p != i && 0 <= q < |xs| ==> U[p, q] == old(U[p, q])
      ensures forall p, q :: 0 <= p < |ys| && p != i && 0 <= q < |xs| ==> V[p, q] == old(V[p, q])
      ensures forall p, q :: 0 <= p < |ys| && p != i && 0 <= q < |xs| ==> C[p, q] == old(C[p, q])
    {
      var cfg := Config();
      for j := 0 to |xs|
        invariant forall q :: 0 <= q < j ==>
                    Displacement(U[i, q], V[i, q], C[i, q]) == DisplacementAt(img1, img2, xs[q], ys[i], (0.0, 0.0), cfg, lib)
        invariant forall p, q :: 0 <= p < |ys| && p != i && 0 <= q < |xs| ==> U[p, q] == old(U[p, q])
        invariant forall p, q :: 0 <= p < |ys| && p != i && 0 <= q < |xs| ==> V[p, q] == old(V[p, q])
        invariant forall p, q :: 0 <= p < |ys| && p != i && 0 <= q < |xs| ==> C[p, q] == old(C[p, q])
      {
        var initialGuess := (0.0, 0.0);
        var dx, dy, correlation := ComputeDisplacement(img1, img2, xs[j], ys[i], initialGuess, lib);
        U[i, j] := dx;
        V[i, j] := dy;
        C[i, j] := correlation;
      }
    }

    /** Mask the unreliable cells of copies of U and V, median-filter both,
        and return them only if some filtered magnitude is present. U, V and
        C themselves are not modified. */
    method PostProcessDisplacements(U: array2<real>, V: array2<real>, C: array2<real>,
                                    minCorrelation: real, lib: Libraries)
      returns (r: Option<(seq<seq<Option<real>>>, seq<seq<Option<real>>>)>)
      requires lib.Valid()
      requires V.Length0 == C.Length0 == U.Length0 && V.Length1 == C.Length1 == U.Length1
      ensures r == PostProcessed(GridOf(U), GridOf(V), GridOf(C), minCorrelation, lib)
    {
      var uFiltered := CopyToOptional(U);
      var vFiltered := CopyToOptional(V);
      MaskUnreliable(uFiltered, C, minCorrelation);
      MaskUnreliable(vFiltered, C, minCorrelation);
      MaskedArray(uFiltered, U, C, minCorrelation);
      MaskedArray(vFiltered, V, C, minCorrelation);
      var uSmoothed := lib.medianFilter(GridOf(uFiltered));
      var vSmoothed := lib.medianFilter(GridOf(vFiltered));
      var magnitude := Magnitudes(uSmoothed, vSmoothed, lib.sqrt);
      if |ValidValues(magnitude)| > 0 {
        r := Some((uSmoothed, vSmoothed));
      } else {
        r := None;
      }
    }
  }
}
