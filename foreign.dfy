/** The numeric-library routines the engine calls but does not implement:
    the bounded L-BFGS-B minimiser, the NaN-padded 3x3 median filter and the
    square root. Each is a parameter of the model; its predicate states the
    only facts the model relies on. */
module Foreign {
  import opened Optional
  import opened Numerics
  import opened Matrices

  /** One box bound `(lo, hi)` of the search. */
  datatype Interval = Interval(lo: real, hi: real)

  /** The `options`/`tol` arguments of the minimiser call. */
  datatype MinimizeOptions = MinimizeOptions(maxIter: int, gtol: real, ftol: real, tol: real)

  /** The two fields of the minimiser's result the engine reads: the point
      `x` and the objective value `fun` there. */
  datatype OptimizeResult = OptimizeResult(x: (real, real), fun: real)

  type Objective = (real, real) -> real

  /** objective, initial guess, box bounds, options. */
  type Minimizer = (Objective, (real, real), (Interval, Interval), MinimizeOptions) -> OptimizeResult

  /** A grid with NaN cells in, a grid with NaN cells out. */
  type MedianFilter = seq<seq<Option<real>>> -> seq<seq<Option<real>>>

  /** A bounded minimiser returns a point inside non-empty box bounds, and
      reports the objective's value at that point. Nothing is assumed about
      how good the point is. */
  ghost predicate Respects(minimize: Minimizer)
  {
    forall f: Objective, g: (real, real), b: (Interval, Interval), o: MinimizeOptions ::
      b.0.lo <= b.0.hi && b.1.lo <= b.1.hi ==>
        && b.0.lo <= minimize(f, g, b, o).x.0 <= b.0.hi
        && b.1.lo <= minimize(f, g, b, o).x.1 <= b.1.hi
        && minimize(f, g, b, o).fun == f(minimize(f, g, b, o).x.0, minimize(f, g, b, o).x.1)
  }

  /** The median filter returns a grid of the shape it was given. */
  ghost predicate PreservesShape(filter: MedianFilter)
  {
    forall g :: Rectangular(g) ==> IsMatrix(filter(g), Height(g), Width(g))
  }

  /** The three library routines, passed together. */
  datatype Libraries = Libraries(minimize: Minimizer, medianFilter: MedianFilter, sqrt: real -> real)
  {
    ghost predicate Valid()
    {
      Respects(minimize) && PreservesShape(medianFilter) && IsSqrt(sqrt)
    }
  }
}
