/** The synchronous processor (`SyncDICProcessor`): loading and cropping a
    pair of images, running the engine on them, and assembling either the
    completed report with its statistics or the error record. */
module SyncProcessor {
  import opened Optional
  import opened Numerics
  import opened Matrices
  import opened Foreign
  import opened DicImages
  import opened DicAlgorithm

  /** The threshold handed to the post-processing, and reported. */
  const MinCorrelation: real := 0.4
  /** A grid point counts as reliable when its correlation exceeds this. */
  const ReliableThreshold: real := 0.5

  /** The outcome of a step the surroundings perform (opening an image,
      writing a file): its value, or the text of the exception raised. */
  datatype Outcome<T> = Done(value: T) | IoError(message: string)

  /** Why a test ended with status "error". The source reports the
      exception's text; here each raising statement has its own cause. */
  datatype ErrorCause =
    | EmptyImage                 // numpy's min over an image without pixels
    | ZeroStep                   // numpy's arange with step 0
    | NoValidPoints              // unpacking the None of the post-processing
    | WriteFailed(message: string)
    | LoadFailed(message: string)

  datatype Statistics = Statistics(
    meanDisplacement: real,
    maxDisplacement: real,
    medianDisplacement: real,
    stdDisplacement: real,
    correlationQuality: real,
    reliablePointsPercentage: real,
    analysisPoints: int,
    imageShape: seq<int>,
    processingTimeSeconds: real,
    windowSize: int,
    stepSize: int)

  datatype Parameters = Parameters(subsetSize: int, step: int, maxIter: int, minCorrelation: real)

  datatype TestResult =
    | Completed(testId: string, imagePaths: map<string, string>, statistics: Statistics,
                parameters: Parameters, timestamp: string, resultsJsonPath: string)
    | Failed(testId: string, error: ErrorCause, failedAt: Option<string>)
  {
    function Status(): string
    {
      if Completed? then "completed" else "error"
    }
  }

  /** What the surroundings supply to one run: the clock readings before and
      after the computation, the timestamp of the record, the paths of the
      saved plots (or the save's failure) and the outcome of the JSON write. */
  datatype Environment = Environment(
    startTime: real,
    endTime: real,
    timestamp: string,
    savedImages: Outcome<map<string, string>>,
    jsonWrite: Outcome<()>)

  /** POSIX `os.path.join` of two components. */
  function Join(dir: string, name: string): (p: string)
    ensures |name| > 0 && name[0] == '/' ==> p == name
    ensures (|name| == 0 || name[0] != '/') && |dir| > 0 && dir[|dir| - 1] != '/' ==> p == dir + "/" + name
  {
    if |name| > 0 && name[0] == '/' then name
    else if |dir| == 0 || dir[|dir| - 1] == '/' then dir + name
    else dir + "/" + name
  }

  function ResultsJsonPath(resultsDir: string, testId: string): string
  {
    Join(Join(resultsDir, testId), testId + "_results.json")
  }

  // ---------------------------------------------------------------------
  // Loading

  /** The top-left h x w block of an image (numpy's `img[:h, :w]`). */
  function Crop(img: seq<seq<real>>, h: nat, w: nat): (r: seq<seq<real>>)
    requires Rectangular(img) && h <= Height(img) && w <= Width(img)
    ensures IsMatrix(r, h, w)
  {
    seq(h, i requires 0 <= i < h => img[i][..w])
  }

  function MinNat(a: nat, b: nat): nat
  {
    if a <= b then a else b
  }

  predicate SameShape(a: seq<seq<real>>, b: seq<seq<real>>)
  {
    Height(a) == Height(b) && Width(a) == Width(b)
  }

  /** Both images collapsed to grayscale and, when their shapes differ,
      cropped to the smaller height and the smaller width. */
  function LoadedImages(raw1: RawImage, raw2: RawImage): (r: (seq<seq<real>>, seq<seq<real>>))
    requires WellFormed(raw1) && WellFormed(raw2)
  {
    var a, b := Grayscale(raw1), Grayscale(raw2);
    if SameShape(a, b) then (a, b)
    else
      var h, w := MinNat(Height(a), Height(b)), MinNat(Width(a), Width(b));
      (Crop(a, h, w), Crop(b, h, w))
  }

  /** After loading, both images have the smaller height and the smaller
      width, keep their top-left entries, and are untouched when their
      grayscale shapes already agree. */
  lemma LoadedImagesAgree(raw1: RawImage, raw2: RawImage)
    requires WellFormed(raw1) && WellFormed(raw2)
    ensures var (a, b) := LoadedImages(raw1, raw2);
            var g1, g2 := Grayscale(raw1), Grayscale(raw2);
            var h, w := MinNat(Height(g1), Height(g2)), MinNat(Width(g1), Width(g2));
            && IsMatrix(a, h, w) && IsMatrix(b, h, w)
            && (forall i, j :: 0 <= i < h && 0 <= j < w ==> a[i][j] == g1[i][j] && b[i][j] == g2[i][j])
            && (SameShape(g1, g2) ==> a == g1 && b == g2)
  {
  }

  // ---------------------------------------------------------------------
  // The report

  /** The percentage of points whose correlation exceeds 0.5. */
  function ReliableShare(correlations: seq<real>): (p: real)
    requires |correlations| > 0
    ensures 0.0 <= p <= 100.0
    ensures p == 0.0 <==> CountAbove(correlations, ReliableThreshold) == 0
    ensures p == 100.0 <==> CountAbove(correlations, ReliableThreshold) == |correlations|
  {
    PercentageAboveInRange(correlations, ReliableThreshold);
    100.0 * CountAbove(correlations, ReliableThreshold) as real / |correlations| as real
  }

  /** The statistics block: the four magnitude figures over the present
      filtered magnitudes (0.0 each when there are none), the mean
      correlation, the share of reliable points, the grid size, and the
      caller's own window size and step. */
  function Summarise(magnitudes: seq<real>, correlations: seq<real>, xs: seq<int>, ys: seq<int>,
                     imageShape: seq<int>, processingTime: real, subsetSize: int, step: int,
                     sqrt: real -> real): Statistics
    requires |correlations| > 0
  {
    Statistics(
      if |magnitudes| > 0 then Mean(magnitudes) else 0.0,
      if |magnitudes| > 0 then Max(magnitudes) else 0.0,
      if |magnitudes| > 0 then Median(magnitudes) else 0.0,
      if |magnitudes| > 0 then Std(magnitudes, sqrt) else 0.0,
      Mean(correlations),
      ReliableShare(correlations),
      |xs| * |ys|,
      imageShape,
      processingTime,
      subsetSize,
      step)
  }

  /** The share of reliable points lies in [0, 100] and the correlation
      quality between the smallest and the largest correlation. */
  lemma CorrelationFigures(magnitudes: seq<real>, correlations: seq<real>, xs: seq<int>, ys: seq<int>,
                           imageShape: seq<int>, processingTime: real, subsetSize: int, step: int,
                           sqrt: real -> real)
    requires |correlations| > 0
    ensures var st := Summarise(magnitudes, correlations, xs, ys, imageShape, processingTime, subsetSize, step, sqrt);
            && 0.0 <= st.reliablePointsPercentage <= 100.0
            && Min(correlations) <= st.correlationQuality <= Max(correlations)
  {
    MeanBetweenMinAndMax(correlations);
  }

  /** The four magnitude figures are 0.0 when no magnitude is present, and
      otherwise lie between the smallest and the largest present magnitude,
      the maximum being one of them. */
  lemma MagnitudeFigures(magnitudes: seq<real>, correlations: seq<real>, xs: seq<int>, ys: seq<int>,
                         imageShape: seq<int>, processingTime: real, subsetSize: int, step: int,
                         sqrt: real -> real)
    requires |correlations| > 0 && IsSqrt(sqrt)
    requires forall x :: x in magnitudes ==> x >= 0.0
    ensures var st := Summarise(magnitudes, correlations, xs, ys, imageShape, processingTime, subsetSize, step, sqrt);
            && (|magnitudes| == 0 ==>
                  st.meanDisplacement == st.maxDisplacement == st.medianDisplacement == st.stdDisplacement == 0.0)
            && (|magnitudes| > 0 ==>
                  && 0.0 <= Min(magnitudes) <= st.meanDisplacement <= st.maxDisplacement
                  && Min(magnitudes) <= st.medianDisplacement <= st.maxDisplacement
                  && st.maxDisplacement in magnitudes
                  && st.stdDisplacement >= 0.0)
  {
    if |magnitudes| > 0 {
      MeanBetweenMinAndMax(magnitudes);
      MedianBetweenMinAndMax(magnitudes);
      StdNonNegative(magnitudes, sqrt);
    }
  }

  /** The statistics block of a run, over the present magnitudes of the
      filtered pair and over every correlation. */
  function RunStatistics(filtered: (seq<seq<Option<real>>>, seq<seq<Option<real>>>), c: seq<seq<real>>,
                         xs: seq<int>, ys: seq<int>, imageShape: seq<int>, subsetSize: int, step: int,
                         sqrt: real -> real, env: Environment): Statistics
    requires |Flatten(c)| > 0
    requires Rectangular(filtered.0) && IsMatrix(filtered.1, Height(filtered.0), Width(filtered.0))
  {
    Summarise(ValidValues(Magnitudes(filtered.0, filtered.1, sqrt)), Flatten(c), xs, ys, imageShape,
              env.endTime - env.startTime, subsetSize, step, sqrt)
  }

  /** The part of `process_test` after the post-processing: its None ends
      the run, then the plots are saved, the statistics assembled over the
      present filtered magnitudes and the report written. */
  function Report(resultsDir: string, testId: string, post: Option<(seq<seq<Option<real>>>, seq<seq<Option<real>>>)>,
                  c: seq<seq<real>>, xs: seq<int>, ys: seq<int>, imageShape: seq<int>,
                  subsetSize: int, step: int, maxIter: int, sqrt: real -> real, env: Environment): TestResult
    requires post.Some? ==> |Flatten(c)| > 0
    requires post.Some? ==> Rectangular(post.value.0) && IsMatrix(post.value.1, Height(post.value.0), Width(post.value.0))
  {
    if post.None? then Failed(testId, NoValidPoints, Some(env.timestamp))
    else if env.savedImages.IoError? then Failed(testId, WriteFailed(env.savedImages.message), Some(env.timestamp))
    else
      var statistics := RunStatistics(post.value, c, xs, ys, imageShape, subsetSize, step, sqrt, env);
      if env.jsonWrite.IoError? then Failed(testId, WriteFailed(env.jsonWrite.message), Some(env.timestamp))
      else Completed(testId, env.savedImages.value, statistics, Parameters(subsetSize, step, maxIter, MinCorrelation),
                     env.timestamp, ResultsJsonPath(resultsDir, testId))
  }

  /** What a run of `process_test` returns, step by step: the preprocessing
      fails on an image without pixels, the grid on a zero step, then the
      rest is the report on the post-processed field. */
  function TestOutcome(resultsDir: string, testId: string, raw1: RawImage, raw2: RawImage,
                       subsetSize: int, step: int, maxIter: int, lib: Libraries, env: Environment): (r: TestResult)
    requires WellFormed(raw1) && WellFormed(raw2) && lib.Valid()
  {
    var cfg := Configure(subsetSize, step, maxIter);
    if !HasPixels(Grayscale(raw1)) || !HasPixels(Grayscale(raw2)) then Failed(testId, EmptyImage, Some(env.timestamp))
    else if step == 0 then Failed(testId, ZeroStep, Some(env.timestamp))
    else
      var images := PreprocessImages(raw1, raw2);
      var field := SolvedField(images.0, images.1, cfg, lib);
      var post := PostProcessed(field.u, field.v, field.c, MinCorrelation, lib);
      PostProcessedSomeIff(field.u, field.v, field.c, MinCorrelation, lib);
      FlattenLength(field.c, Height(field.u), Width(field.u));
      Report(resultsDir, testId, post, field.c, GridColumns(images.0, cfg), GridRows(images.0, cfg), Shape(raw1),
             subsetSize, step, maxIter, lib.sqrt, env)
  }

  /** On images with pixels and a non-zero step, the run's outcome is the
      report on the post-processed solved field. */
  lemma OutcomeIsReport(resultsDir: string, testId: string, raw1: RawImage, raw2: RawImage,
                        subsetSize: int, step: int, maxIter: int, lib: Libraries, env: Environment)
    requires WellFormed(raw1) && WellFormed(raw2) && lib.Valid()
    requires HasPixels(Grayscale(raw1)) && HasPixels(Grayscale(raw2)) && step != 0
    ensures var cfg := Configure(subsetSize, step, maxIter);
            var images := PreprocessImages(raw1, raw2);
            var field := SolvedField(images.0, images.1, cfg, lib);
            var post := PostProcessed(field.u, field.v, field.c, MinCorrelation, lib);
            && (post.Some? ==> |Flatten(field.c)| > 0)
            && (post.Some? ==> Rectangular(post.value.0) && IsMatrix(post.value.1, Height(post.value.0), Width(post.value.0)))
            && TestOutcome(resultsDir, testId, raw1, raw2, subsetSize, step, maxIter, lib, env)
               == Report(resultsDir, testId, post, field.c, GridColumns(images.0, cfg), GridRows(images.0, cfg), Shape(raw1),
                         subsetSize, step, maxIter, lib.sqrt, env)
  {
    var cfg := Configure(subsetSize, step, maxIter);
    var images := PreprocessImages(raw1, raw2);
    var field := SolvedField(images.0, images.1, cfg, lib);
    PostProcessedSomeIff(field.u, field.v, field.c, MinCorrelation, lib);
    FlattenLength(field.c, Height(field.u), Width(field.u));
  }

  /** What `process_test_from_files` returns: a failure to open either
      image is reported without a timestamp; otherwise the loaded pair is
      processed. */
  function FromFilesOutcome(resultsDir: string, testId: string, loaded1: Outcome<RawImage>, loaded2: Outcome<RawImage>,
                            subsetSize: int, step: int, maxIter: int, lib: Libraries, env: Environment): TestResult
    requires loaded1.Done? ==> WellFormed(loaded1.value)
    requires loaded2.Done? ==> WellFormed(loaded2.value)
    requires lib.Valid()
  {
    if loaded1.IoError? then Failed(testId, LoadFailed(loaded1.message), None)
    else if loaded2.IoError? then Failed(testId, LoadFailed(loaded2.message), None)
    else
      var images := LoadedImages(loaded1.value, loaded2.value);
      TestOutcome(resultsDir, testId, Gray(images.0), Gray(images.1), subsetSize, step, maxIter, lib, env)
  }

  // ---------------------------------------------------------------------
  // Properties of the report

  /** A completed report echoes the caller's parameters, window size and
      step (not the normalised window), with the fixed threshold 0.4; its
      grid size is |xs| * |ys| and its JSON path lies in the test's
      directory. */
  lemma CompletedEchoes(resultsDir: string, testId: string, post: Option<(seq<seq<Option<real>>>, seq<seq<Option<real>>>)>,
                        c: seq<seq<real>>, xs: seq<int>, ys: seq<int>, imageShape: seq<int>,
                        subsetSize: int, step: int, maxIter: int, sqrt: real -> real, env: Environment)
    requires post.Some? ==> |Flatten(c)| > 0
    requires post.Some? ==> Rectangular(post.value.0) && IsMatrix(post.value.1, Height(post.value.0), Width(post.value.0))
    requires Report(resultsDir, testId, post, c, xs, ys, imageShape, subsetSize, step, maxIter, sqrt, env).Completed?
    ensures var r := Report(resultsDir, testId, post, c, xs, ys, imageShape, subsetSize, step, maxIter, sqrt, env);
            var st := r.statistics;
            && post.Some? && env.savedImages.Done? && env.jsonWrite.Done?
            && r.Status() == "completed" && r.testId == testId && r.timestamp == env.timestamp
            && r.imagePaths == env.savedImages.value
            && r.parameters == Parameters(subsetSize, step, maxIter, 0.4)
            && st.windowSize == subsetSize && st.stepSize == step
            && st.imageShape == imageShape
            && st.processingTimeSeconds == env.endTime - env.startTime
            && st.analysisPoints == |xs| * |ys|
            && r.resultsJsonPath == ResultsJsonPath(resultsDir, testId)
  {
  }

  /** The figures of a completed report: the reliable share lies in
      [0, 100], and the magnitude figures are taken over the present
      filtered magnitudes and are never negative. */
  lemma CompletedFigures(resultsDir: string, testId: string, post: Option<(seq<seq<Option<real>>>, seq<seq<Option<real>>>)>,
                         c: seq<seq<real>>, xs: seq<int>, ys: seq<int>, imageShape: seq<int>,
                         subsetSize: int, step: int, maxIter: int, sqrt: real -> real, env: Environment)
    requires post.Some? ==> |Flatten(c)| > 0
    requires post.Some? ==> Rectangular(post.value.0) && IsMatrix(post.value.1, Height(post.value.0), Width(post.value.0))
    requires IsSqrt(sqrt)
    requires Report(resultsDir, testId, post, c, xs, ys, imageShape, subsetSize, step, maxIter, sqrt, env).Completed?
    ensures var st := Report(resultsDir, testId, post, c, xs, ys, imageShape, subsetSize, step, maxIter, sqrt, env).statistics;
            var magnitudes := ValidValues(Magnitudes(post.value.0, post.value.1, sqrt));
            && st == Summarise(magnitudes, Flatten(c), xs, ys, imageShape, env.endTime - env.startTime, subsetSize, step, sqrt)
            && 0.0 <= st.reliablePointsPercentage <= 100.0
            && 0.0 <= st.meanDisplacement <= st.maxDisplacement
            && 0.0 <= st.medianDisplacement <= st.maxDisplacement
            && st.stdDisplacement >= 0.0
            && (|magnitudes| > 0 ==> st.maxDisplacement in magnitudes)
  {
    var magnitudes := ValidValues(Magnitudes(post.value.0, post.value.1, sqrt));
    ValidMagnitudesNonNegative(post.value.0, post.value.1, sqrt);
    CorrelationFigures(magnitudes, Flatten(c), xs, ys, imageShape, env.endTime - env.startTime, subsetSize, step, sqrt);
    MagnitudeFigures(magnitudes, Flatten(c), xs, ys, imageShape, env.endTime - env.startTime, subsetSize, step, sqrt);
  }

  /** A run completes only on images with pixels, a non-zero step and a
      post-processing that keeps a present magnitude, so the magnitude
      figures never fall back to 0.0; the grid then has as many points as C
      has cells, and at least one. */
  lemma CompletedRun(resultsDir: string, testId: string, raw1: RawImage, raw2: RawImage,
                     subsetSize: int, step: int, maxIter: int, lib: Libraries, env: Environment)
    requires WellFormed(raw1) && WellFormed(raw2) && lib.Valid()
    requires TestOutcome(resultsDir, testId, raw1, raw2, subsetSize, step, maxIter, lib, env).Completed?
    ensures HasPixels(Grayscale(raw1)) && HasPixels(Grayscale(raw2)) && step != 0
    ensures var cfg := Configure(subsetSize, step, maxIter);
            var images := PreprocessImages(raw1, raw2);
            var field := SolvedField(images.0, images.1, cfg, lib);
            var post := PostProcessed(field.u, field.v, field.c, MinCorrelation, lib);
            var r := TestOutcome(resultsDir, testId, raw1, raw2, subsetSize, step, maxIter, lib, env);
            && post.Some?
            && Rectangular(post.value.0) && IsMatrix(post.value.1, Height(post.value.0), Width(post.value.0))
            && |ValidValues(Magnitudes(post.value.0, post.value.1, lib.sqrt))| > 0
            && r.statistics.analysisPoints == |Flatten(field.c)| > 0
  {
    var cfg := Configure(subsetSize, step, maxIter);
    var images := PreprocessImages(raw1, raw2);
    var field := SolvedField(images.0, images.1, cfg, lib);
    OutcomeIsReport(resultsDir, testId, raw1, raw2, subsetSize, step, maxIter, lib, env);
    PostProcessedSomeIff(field.u, field.v, field.c, MinCorrelation, lib);
    FlattenLength(field.c, |GridRows(images.0, cfg)|, |GridColumns(images.0, cfg)|);
  }

  /** The report fails exactly on the error status, always with the run's
      timestamp, never for an empty image or a zero step, and with
      NoValidPoints exactly when the post-processing gave nothing. */
  lemma ReportFailures(resultsDir: string, testId: string, post: Option<(seq<seq<Option<real>>>, seq<seq<Option<real>>>)>,
                       c: seq<seq<real>>, xs: seq<int>, ys: seq<int>, imageShape: seq<int>,
                       subsetSize: int, step: int, maxIter: int, sqrt: real -> real, env: Environment)
    requires post.Some? ==> |Flatten(c)| > 0
    requires post.Some? ==> Rectangular(post.value.0) && IsMatrix(post.value.1, Height(post.value.0), Width(post.value.0))
    ensures var r := Report(resultsDir, testId, post, c, xs, ys, imageShape, subsetSize, step, maxIter, sqrt, env);
            && (r.Failed? <==> r.Status() == "error")
            && (r.Failed? ==> r.testId == testId && r.failedAt == Some(env.timestamp))
            && (r.Failed? ==> r.error != EmptyImage && r.error != ZeroStep)
            && (r.Failed? && r.error == NoValidPoints <==> post.None?)
  {
  }

  /** Every failure carries the status "error", the test's id, no
      statistics and the run's timestamp. */
  lemma FailureRecord(resultsDir: string, testId: string, raw1: RawImage, raw2: RawImage,
                      subsetSize: int, step: int, maxIter: int, lib: Libraries, env: Environment)
    requires WellFormed(raw1) && WellFormed(raw2) && lib.Valid()
    ensures var r := TestOutcome(resultsDir, testId, raw1, raw2, subsetSize, step, maxIter, lib, env);
            && (r.Failed? <==> r.Status() == "error")
            && (r.Failed? ==> r.testId == testId && r.failedAt == Some(env.timestamp))
  {
    if HasPixels(Grayscale(raw1)) && HasPixels(Grayscale(raw2)) && step != 0 {
      OutcomeIsReport(resultsDir, testId, raw1, raw2, subsetSize, step, maxIter, lib, env);
      var cfg := Configure(subsetSize, step, maxIter);
      var images := PreprocessImages(raw1, raw2);
      var field := SolvedField(images.0, images.1, cfg, lib);
      ReportFailures(resultsDir, testId, PostProcessed(field.u, field.v, field.c, MinCorrelation, lib), field.c,
                     GridColumns(images.0, cfg), GridRows(images.0, cfg), Shape(raw1), subsetSize, step, maxIter, lib.sqrt, env);
    }
  }

  /** An image without pixels fails the run before anything else, then a
      zero step. */
  lemma EarlyFailures(resultsDir: string, testId: string, raw1: RawImage, raw2: RawImage,
                      subsetSize: int, step: int, maxIter: int, lib: Libraries, env: Environment)
    requires WellFormed(raw1) && WellFormed(raw2) && lib.Valid()
    ensures var r := TestOutcome(resultsDir, testId, raw1, raw2, subsetSize, step, maxIter, lib, env);
            var pixels := HasPixels(Grayscale(raw1)) && HasPixels(Grayscale(raw2));
            && (r.Failed? && r.error == EmptyImage <==> !pixels)
            && (r.Failed? && r.error == ZeroStep <==> pixels && step == 0)
  {
    if HasPixels(Grayscale(raw1)) && HasPixels(Grayscale(raw2)) && step != 0 {
      OutcomeIsReport(resultsDir, testId, raw1, raw2, subsetSize, step, maxIter, lib, env);
      var cfg := Configure(subsetSize, step, maxIter);
      var images := PreprocessImages(raw1, raw2);
      var field := SolvedField(images.0, images.1, cfg, lib);
      ReportFailures(resultsDir, testId, PostProcessed(field.u, field.v, field.c, MinCorrelation, lib), field.c,
                     GridColumns(images.0, cfg), GridRows(images.0, cfg), Shape(raw1), subsetSize, step, maxIter, lib.sqrt, env);
    }
  }

  /** When no filtered magnitude survives, the unpacking fails and the run
      reports NoValidPoints; it is the only way to get that cause. */
  lemma NoValidPointsFailure(resultsDir: string, testId: string, raw1: RawImage, raw2: RawImage,
                             subsetSize: int, step: int, maxIter: int, lib: Libraries, env: Environment)
    requires WellFormed(raw1) && WellFormed(raw2) && lib.Valid()
    ensures var r := TestOutcome(resultsDir, testId, raw1, raw2, subsetSize, step, maxIter, lib, env);
            (r.Failed? && r.error == NoValidPoints)
            <==> && HasPixels(Grayscale(raw1)) && HasPixels(Grayscale(raw2)) && step != 0
                 && var cfg := Configure(subsetSize, step, maxIter);
                    var images := PreprocessImages(raw1, raw2);
                    var field := SolvedField(images.0, images.1, cfg, lib);
                    PostProcessed(field.u, field.v, field.c, MinCorrelation, lib).None?
  {
    if HasPixels(Grayscale(raw1)) && HasPixels(Grayscale(raw2)) && step != 0 {
      OutcomeIsReport(resultsDir, testId, raw1, raw2, subsetSize, step, maxIter, lib, env);
      var cfg := Configure(subsetSize, step, maxIter);
      var images := PreprocessImages(raw1, raw2);
      var field := SolvedField(images.0, images.1, cfg, lib);
      ReportFailures(resultsDir, testId, PostProcessed(field.u, field.v, field.c, MinCorrelation, lib), field.c,
                     GridColumns(images.0, cfg), GridRows(images.0, cfg), Shape(raw1), subsetSize, step, maxIter, lib.sqrt, env);
    }
  }

  /** A failure to open either image is reported as a load error without a
      timestamp; the first image is opened first. */
  lemma LoadFailureReport(resultsDir: string, testId: string, loaded1: Outcome<RawImage>, loaded2: Outcome<RawImage>,
                          subsetSize: int, step: int, maxIter: int, lib: Libraries, env: Environment)
    requires loaded1.Done? ==> WellFormed(loaded1.value)
    requires loaded2.Done? ==> WellFormed(loaded2.value)
    requires lib.Valid()
    ensures var r := FromFilesOutcome(resultsDir, testId, loaded1, loaded2, subsetSize, step, maxIter, lib, env);
            && (loaded1.IoError? ==> r == Failed(testId, LoadFailed(loaded1.message), None))
            && (loaded1.Done? && loaded2.IoError? ==> r == Failed(testId, LoadFailed(loaded2.message), None))
            && (r.Failed? && r.failedAt.None? <==> loaded1.IoError? || loaded2.IoError?)
  {
    var r := FromFilesOutcome(resultsDir, testId, loaded1, loaded2, subsetSize, step, maxIter, lib, env);
    if loaded1.Done? && loaded2.Done? {
      var images := LoadedImages(loaded1.value, loaded2.value);
      FailureRecord(resultsDir, testId, Gray(images.0), Gray(images.1), subsetSize, step, maxIter, lib, env);
    }
  }

  class SyncDICProcessor {
    const resultsDir: string

    constructor (resultsDir: string)
      ensures this.resultsDir == resultsDir
    {
      this.resultsDir := resultsDir;
    }

    /** Collapse both images to grayscale, then crop both to the common
        top-left block when their shapes differ. */
    method LoadImagesSync(raw1: RawImage, raw2: RawImage) returns (img1: seq<seq<real>>, img2: seq<seq<real>>)
      requires WellFormed(raw1) && WellFormed(raw2)
      ensures (img1, img2) == LoadedImages(raw1, raw2)
    {
      img1 := Grayscale(raw1);
      img2 := Grayscale(raw2);
      if !SameShape(img1, img2) {
        var minHeight := MinNat(Height(img1), Height(img2));
        var minWidth := MinNat(Width(img1), Width(img2));
        img1 := Crop(img1, minHeight, minWidth);
        img2 := Crop(img2, minHeight, minWidth);
      }
    }

    method ProcessTest(testId: string, raw1: RawImage, raw2: RawImage, subsetSize: int, step: int, maxIter: int,
                       lib: Libraries, env: Environment) returns (r: TestResult)
      requires WellFormed(raw1) && WellFormed(raw2) && lib.Valid()
      ensures r == TestOutcome(resultsDir, testId, raw1, raw2, subsetSize, step, maxIter, lib, env)
    {
      var dic := new DigitalImageCorrelation(subsetSize, step, maxIter);
      if !HasPixels(Grayscale(raw1)) || !HasPixels(Grayscale(raw2)) {
        return Failed(testId, EmptyImage, Some(env.timestamp));
      }
      if step == 0 {
        return Failed(testId, ZeroStep, Some(env.timestamp));
      }
      var U, V, C, xCoords, yCoords, img1Processed, img2Processed := dic.ComputeDisplacementFieldSequential(raw1, raw2, lib);
      FieldOfCells(U, V, C, img1Processed, img2Processed, dic.Config(), lib);
      OutcomeIsReport(resultsDir, testId, raw1, raw2, subsetSize, step, maxIter, lib, env);
      var post := dic.PostProcessDisplacements(U, V, C, MinCorrelation, lib);
      r := ReportResults(testId, post, GridOf(C), xCoords, yCoords, Shape(raw1), subsetSize, step, maxIter, lib.sqrt, env);
    }

    /** The tail of `process_test`: unpack the filtered field, save the
        images, summarise the run and write the JSON results, each of
        which can fail. The statistics are pure, so they are assembled
        only once the write is known to succeed. */
    method ReportResults(testId: string, post: Option<(seq<seq<Option<real>>>, seq<seq<Option<real>>>)>,
                         c: seq<seq<real>>, xs: seq<int>, ys: seq<int>, imageShape: seq<int>,
                         subsetSize: int, step: int, maxIter: int, sqrt: real -> real, env: Environment)
      returns (r: TestResult)
      requires post.Some? ==> |Flatten(c)| > 0
      requires post.Some? ==> Rectangular(post.value.0) && IsMatrix(post.value.1, Height(post.value.0), Width(post.value.0))
      ensures r == Report(resultsDir, testId, post, c, xs, ys, imageShape, subsetSize, step, maxIter, sqrt, env)
    {
      if post.None? {
        r := Failed(testId, NoValidPoints, Some(env.timestamp));
      } else if env.savedImages.IoError? {
        r := Failed(testId, WriteFailed(env.savedImages.message), Some(env.timestamp));
      } else if env.jsonWrite.IoError? {
        r := Failed(testId, WriteFailed(env.jsonWrite.message), Some(env.timestamp));
      } else {
        var statistics := RunStatistics(post.value, c, xs, ys, imageShape, subsetSize, step, sqrt, env);
        var resultsPath := ResultsJsonPath(resultsDir, testId);
        r := Completed(testId, env.savedImages.value, statistics, Parameters(subsetSize, step, maxIter, MinCorrelation),
                       env.timestamp, resultsPath);
      }
    }

    method ProcessTestFromFiles(testId: string, loaded1: Outcome<RawImage>, loaded2: Outcome<RawImage>,
                                subsetSize: int, step: int, maxIter: int, lib: Libraries, env: Environment)
      returns (r: TestResult)
      requires loaded1.Done? ==> WellFormed(loaded1.value)
      requires loaded2.Done? ==> WellFormed(loaded2.value)
      requires lib.Valid()
      ensures r == FromFilesOutcome(resultsDir, testId, loaded1, loaded2, subsetSize, step, maxIter, lib, env)
    {
      if loaded1.IoError? {
        return Failed(testId, LoadFailed(loaded1.message), None);
      }
      if loaded2.IoError? {
        return Failed(testId, LoadFailed(loaded2.message), None);
      }
      var img1, img2 := LoadImagesSync(loaded1.value, loaded2.value);
      r := ProcessTest(testId, Gray(img1), Gray(img2), subsetSize, step, maxIter, lib, env);
    }
  }
}
