# DIC core in Dafny

A Dafny model of the computational core of a digital image correlation
(DIC) service. The service compares a reference image with a deformed
image. It lays a regular grid over the reference image and takes a square
window around each grid point. For each point it runs a bounded local
minimisation of the negated ZNCC over sub-pixel shifts, starting from zero
shift, and records the shift where the minimiser stops and the score
there. That shift need not be the best-correlating one. It drops the
unreliable points and median-filters the two displacement fields.
Finally it reports statistics of the displacement magnitudes.

The model covers five parts:

- the engine `DigitalImageCorrelation`, in `dic_images.dfy`,
  `dic_sampling.dfy`, `dic_similarity.dfy` and `dic_algorithm.dfy`:
  - window-size normalisation;
  - intensity preprocessing;
  - zero-mean normalised cross-correlation (ZNCC);
  - bilinear sampling with its hard-zero boundary;
  - window extraction;
  - the single-point solve;
  - the row-major assembly of the U, V and C arrays;
  - the reliability masking of the post-processing;
- the synchronous processor `SyncDICProcessor`, in `sync_processor.dfy`:
  - grayscale collapse and cropping of a loaded pair;
  - the statistics block;
  - the completed and error records of `process_test`;
  - the load error of `process_test_from_files`;
- the API validator `validate_subset_size`, in `serializers.dfy`;
- the analysis record `DICAnalysis`, in `models.dfy`: its status choices,
  field defaults and the timestamps `save` fills in;
- shared reductions (sum, mean, max, min, median, std, threshold counts)
  in `numerics.dfy`, grids and `array2` views in `matrices.dfy`, and the
  missing-value marker in `optional.dfy`.

Images and windows are values of type `seq<seq<real>>`. The arrays the
source fills in loops stay `array2<real>`: the window, and U, V and C.
Those loops are `method`s with loop invariants, proved against a function
that specifies the result (`Subset`, `SolvedField`, `PostProcessed`,
`TestOutcome`). The lemmas state what the source promises about those
functions.

Three numeric-library routines are parameters of the model, bundled as
`Foreign.Libraries`:

- the minimiser (`scipy.optimize.minimize` with L-BFGS-B). The model
  assumes only that it returns a point inside the box bounds and the
  objective's value at that point;
- the median filter. The model assumes only that it keeps the shape of
  the grid;
- the square root. The model assumes only that the root of a non-negative
  number is non-negative and that the root of 0 is 0. Every argument the
  source passes to it is proved non-negative: U^2 + V^2 in the magnitudes,
  a product of two sums of squares in ZNCC, and a mean of squares in the
  standard deviation.

The clock, the timestamp, the saving of the plots and the JSON write are
fields of `SyncProcessor.Environment`. The opened images are
`SyncProcessor.Outcome` values, so that failing to open a file is part of
the model. A NaN cell of a filtered displacement array is `None`.

The code contradicts itself in one place, and the model follows what it
does. `process_test` falls back to 0.0 for each magnitude statistic when
no filtered magnitude is valid (app/dic_api/dic_bisnes_logik/sync_processor.py:63-66).
That branch is dead: `post_process_displacements` returns a pair only
when some filtered magnitude is valid, and otherwise falls off the end
and returns `None` (app/dic_algoritm/dic_algorithm.py:204-205).
`process_test` then fails when it unpacks that result, and the run ends
as an error record. `SyncProcessor.NoValidPointsFailure` and
`SyncProcessor.CompletedRun` prove this, so no completed run uses the 0.0
fallback.

## Model

| member | source | states |
|---|---|---|
| DicAlgorithm.Configure | app/dic_algoritm/dic_algorithm.py:21-30 | the kept window size is odd and in [21, 31], and half of it (rounded down) is in [10, 15]; an odd size in range is kept, an even one in range becomes the next odd one, sizes below 21 become 21 and above 31 become 31; step, max_iter and the 1e-6 tolerance are kept |
| DicAlgorithm.DigitalImageCorrelation.constructor | app/dic_algoritm/dic_algorithm.py:17-30 | an even size is made odd, then clamped into [21, 31] as `Configure` says; half_subset = size div 2, step and max_iter are kept |
| DicImages.ChannelMean | app/dic_algoritm/dic_algorithm.py:39-42 | collapsing the channel axis keeps the height and width of the image |
| DicImages.Grayscale | app/dic_algoritm/dic_algorithm.py:39-42 | a colour image becomes its channel mean and a gray image is kept; the result is a rectangular image (see ReplicatedChannelsCollapse and GrayscaleWithinChannels) |
| DicImages.ReplicatedChannelsCollapse | app/dic_api/dic_bisnes_logik/sync_processor.py:128-131 | a colour image whose channels all repeat a gray image collapses to exactly that gray image |
| DicImages.GrayscaleWithinChannels | app/dic_api/dic_bisnes_logik/sync_processor.py:128-131 | a collapsed pixel lies between its darkest and brightest channel |
| DicImages.PreprocessImages | app/dic_algoritm/dic_algorithm.py:35-47 | each preprocessed image has the shape of its grayscale input |
| DicImages.Normalise | app/dic_algoritm/dic_algorithm.py:44-45 | the normalised image has the shape of its input (see the Normalise lemmas below) |
| DicImages.PixelWithinExtremes | app/dic_algoritm/dic_algorithm.py:44-45 | every pixel lies between the image's min and max |
| DicImages.NormaliseRange | app/dic_algoritm/dic_algorithm.py:44-45 | every normalised pixel lies in [0, 1), and the division never fails |
| DicImages.NormaliseMinimumIsZero | app/dic_algoritm/dic_algorithm.py:44-45 | the darkest pixels map to exactly 0 |
| DicImages.NormaliseConstantIsZero | app/dic_algoritm/dic_algorithm.py:44-45 | a constant image normalises to all zeros, without a division fault |
| DicImages.NormaliseMonotone | app/dic_algoritm/dic_algorithm.py:44-45 | normalisation keeps the order of intensities |
| DicSimilarity.ZnccSymmetric | app/dic_algoritm/dic_algorithm.py:53-59 | the score is the same whichever window is the reference |
| DicSimilarity.ZnccShiftInvariant | app/dic_algoritm/dic_algorithm.py:53-59 | adding a constant brightness to either window leaves the score unchanged |
| DicSimilarity.ZnccOfConstantWindow | app/dic_algoritm/dic_algorithm.py:53-59 | the score is exactly 0 when either window is constant |
| DicSimilarity.ZnccOf | app/dic_algoritm/dic_algorithm.py:49-59 | no contract; the ZNCC of two equally long intensity sequences, the correlation of their deviations from their means (see the Zncc lemmas) |
| DicSimilarity.Correlation | app/dic_algoritm/dic_algorithm.py:56-59 | no contract; its well-formedness proves that the root is taken of a non-negative product, so the denominator is at least 1e-10 |
| DicSimilarity.Zncc | app/dic_algoritm/dic_algorithm.py:49-59 | no contract; the ZNCC of two windows of one shape, over their row-major entries (see ZnccSymmetric, ZnccShiftInvariant and ZnccOfConstantWindow) |
| DicSampling.Bilinear | app/dic_algoritm/dic_algorithm.py:61-83 | no contract; the four-neighbour interpolation with its hard-zero boundary guard (see the Bilinear lemmas below) |
| DicSampling.BilinearOutsideIsZero | app/dic_algoritm/dic_algorithm.py:65-71 | the sample is 0 whenever floor(x) < 0, floor(y) < 0, floor(x) + 1 >= width or floor(y) + 1 >= height |
| DicSampling.BilinearAtPixel | app/dic_algoritm/dic_algorithm.py:65-83 | at integer (x, y) with x <= width - 2 and y <= height - 2 the sample is exactly img[y][x] |
| DicSampling.BilinearOnLastColumnIsZero | app/dic_algoritm/dic_algorithm.py:66-71 | on the last column the sample is 0, even where that pixel exists |
| DicSampling.BilinearOnLastRowIsZero | app/dic_algoritm/dic_algorithm.py:68-71 | on the last row the sample is 0 |
| DicSampling.BilinearWithinRange | app/dic_algoritm/dic_algorithm.py:73-83 | bounds on the pixels (with 0 inside them) bound every sample; the formula is a convex combination |
| DicSampling.Subset | app/dic_algoritm/dic_algorithm.py:90-105 | the window is size x size; entry (i, j) is the sample at (cx + j - half, cy + i - half) when that point lies in [0, W) x [0, H), and 0 otherwise |
| DicSampling.SubsetInsideMargin | app/dic_algoritm/dic_algorithm.py:95-103 | a window centred at least half a window inside the image is never cut by the bounds test: every entry is the bilinear sample |
| DicSampling.SubsetAtPixel | app/dic_algoritm/dic_algorithm.py:95-103 | inside the margin and away from the last row and column, a window entry is the pixel itself |
| DicSampling.SubsetZeroOnLastColumn | app/dic_algoritm/dic_algorithm.py:100-103 | window entries that fall on the image's last column are 0 |
| DicAlgorithm.DigitalImageCorrelation.GetSubsetInterpolated | app/dic_algoritm/dic_algorithm.py:85-105 | the loops, with their skipped rows, leave in the zero matrix exactly the window `Subset` |
| DicAlgorithm.ObjectiveAt | app/dic_algoritm/dic_algorithm.py:121-125 | no contract; the objective handed to the minimiser, the negated ZNCC of the fixed reference window against the window of img2 at (x + dx, y + dy) (see DisplacementScore) |
| DicAlgorithm.DisplacementAt | app/dic_algoritm/dic_algorithm.py:119-141 | the returned dx and dy lie in [-15, 15] |
| DicAlgorithm.DisplacementScore | app/dic_algoritm/dic_algorithm.py:119-139 | the correlation reported is the ZNCC of the fixed reference window of img1 at (x, y) against the window of img2 at (x + dx, y + dy) |
| DicAlgorithm.DigitalImageCorrelation.ComputeDisplacement | app/dic_algoritm/dic_algorithm.py:107-141 | returns the solve `DisplacementAt` from the given guess, with dx and dy in [-15, 15] |
| DicAlgorithm.ARange | app/dic_algoritm/dic_algorithm.py:151-152 | no contract; numpy's arange on integers, for either sign of the step (see ARangePositiveStep) |
| DicAlgorithm.GridRows | app/dic_algoritm/dic_algorithm.py:150-151 | no contract; y_coords = arange(half, height - half, step) (see GridInsideMargin) |
| DicAlgorithm.GridColumns | app/dic_algoritm/dic_algorithm.py:150-152 | no contract; x_coords = arange(half, width - half, step) (see GridInsideMargin) |
| DicAlgorithm.ARangePositiveStep | app/dic_algoritm/dic_algorithm.py:151-152 | with a positive step, arange lists start, start + step, ... all below stop, and stops at the first value that reaches stop |
| DicAlgorithm.GridInsideMargin | app/dic_algoritm/dic_algorithm.py:150-152 | with a positive step every grid coordinate is at least half a window from every edge, so its window lies inside the image |
| DicAlgorithm.SolvedField | app/dic_algoritm/dic_algorithm.py:154-165 | U, V and C have shape len(y_coords) x len(x_coords) |
| DicAlgorithm.FieldOfCells | app/dic_algoritm/dic_algorithm.py:154-165 | arrays whose every cell (i, j) holds the solve at (x_coords[j], y_coords[i]) from (0, 0) are the solved field |
| DicAlgorithm.DigitalImageCorrelation.SolveRow | app/dic_algoritm/dic_algorithm.py:159-165 | the inner loop fills row i with the solves at its grid points from (0, 0) and leaves every other row unchanged |
| DicAlgorithm.DigitalImageCorrelation.SolveGrid | app/dic_algoritm/dic_algorithm.py:150-165 | the grid is arange(half, dim - half, step) on both axes; fresh U, V, C of grid shape whose cell (i, j) is the independent solve at (x_coords[j], y_coords[i]) from (0, 0) |
| DicAlgorithm.DigitalImageCorrelation.ComputeDisplacementFieldSequential | app/dic_algoritm/dic_algorithm.py:143-173 | returns the preprocessed pair, the grid coordinates of img1, and fresh U, V, C filled cell by cell as above |
| DicAlgorithm.CopyToOptional | app/dic_algoritm/dic_algorithm.py:188-189 | a fresh copy of the array, every cell present |
| DicAlgorithm.MaskUnreliable | app/dic_algoritm/dic_algorithm.py:191-196 | in place, a cell becomes missing exactly when C there does not exceed the threshold; other cells keep their values |
| DicAlgorithm.Masked | app/dic_algoritm/dic_algorithm.py:188-196 | the masked grid has the shape of U (see MaskedCell and MaskedMissingCount) |
| DicAlgorithm.Magnitude | app/dic_algoritm/dic_algorithm.py:201 | a magnitude is present exactly when both U and V are, and a present magnitude is never negative, because the root is taken of U^2 + V^2 |
| DicAlgorithm.Magnitudes | app/dic_algoritm/dic_algorithm.py:201 | the magnitude grid has the shape of U |
| DicAlgorithm.MaskedArray | app/dic_algoritm/dic_algorithm.py:188-196 | the copied and masked array is the masked grid |
| DicAlgorithm.MaskedCell | app/dic_algoritm/dic_algorithm.py:191-196 | before the median filter a cell is missing iff C[i][j] <= min_correlation, and a present cell keeps U's value |
| DicAlgorithm.MaskedMissingCount | app/dic_algoritm/dic_algorithm.py:191-196 | the missing cells number C.size minus the count of C > min_correlation |
| DicAlgorithm.ValidMagnitudesNonNegative | app/dic_algoritm/dic_algorithm.py:201-202 | the present filtered magnitudes are never negative |
| DicAlgorithm.ValidValuesNonEmpty | app/dic_algoritm/dic_algorithm.py:202-204 | the list of present values is non-empty iff some cell is present |
| DicAlgorithm.PostProcessedSomeIff | app/dic_algoritm/dic_algorithm.py:198-205 | the filtered pair is returned iff some cell is present in both filtered arrays; then the grid is non-empty and both arrays keep its shape; otherwise nothing is returned |
| DicAlgorithm.PostProcessed | app/dic_algoritm/dic_algorithm.py:181-205 | no contract; mask, median-filter both fields, and return them only when some filtered magnitude is present (see PostProcessedSomeIff) |
| DicAlgorithm.DigitalImageCorrelation.PostProcessDisplacements | app/dic_algoritm/dic_algorithm.py:181-205 | returns `PostProcessed` of U, V and C as they are; U, V and C are not modified |
| Numerics.Mean | app/dic_api/dic_bisnes_logik/sync_processor.py:63 | no contract; numpy's mean (see MeanBetweenMinAndMax) |
| Numerics.Max | app/dic_api/dic_bisnes_logik/sync_processor.py:64 | the maximum is one of the values and no value exceeds it |
| Numerics.Median | app/dic_api/dic_bisnes_logik/sync_processor.py:65 | no contract; the middle of the sorted values, or the mean of the two middle ones (see MedianBetweenMinAndMax) |
| Numerics.Std | app/dic_api/dic_bisnes_logik/sync_processor.py:66 | no contract; numpy's population standard deviation (see StdNonNegative) |
| Numerics.StdNonNegative | app/dic_api/dic_bisnes_logik/sync_processor.py:66 | the standard deviation is never negative, because the root is taken of a mean of squares |
| Numerics.SortedCopy | app/dic_api/dic_bisnes_logik/sync_processor.py:65 | the sorted values the median is read from are ascending and a permutation of the input |
| Numerics.MedianBetweenMinAndMax | app/dic_api/dic_bisnes_logik/sync_processor.py:65 | the median lies between the smallest and the largest value |
| Numerics.MeanBetweenMinAndMax | app/dic_api/dic_bisnes_logik/sync_processor.py:63 | the mean lies between the smallest and the largest value |
| SyncProcessor.ReliableShare | app/dic_api/dic_bisnes_logik/sync_processor.py:68 | 100 * count(C > 0.5) / C.size lies in [0, 100]; it is 0 iff no point exceeds 0.5 and 100 iff all do |
| SyncProcessor.CorrelationFigures | app/dic_api/dic_bisnes_logik/sync_processor.py:67-68 | the reliable share is in [0, 100], and the correlation quality lies between the smallest and the largest correlation |
| SyncProcessor.MagnitudeFigures | app/dic_api/dic_bisnes_logik/sync_processor.py:51-66 | with no present magnitude, mean, max, median and std are all 0.0; otherwise they lie between the smallest and the largest present magnitude, the maximum is one of them, and std >= 0 |
| SyncProcessor.Summarise | app/dic_api/dic_bisnes_logik/sync_processor.py:58-73 | no contract; the statistics block (see ReliableShare, CorrelationFigures and MagnitudeFigures) |
| SyncProcessor.RunStatistics | app/dic_api/dic_bisnes_logik/sync_processor.py:51-73 | no contract; the statistics block over the present magnitudes of the filtered pair and every correlation (see CompletedFigures) |
| SyncProcessor.Join | app/dic_api/dic_bisnes_logik/sync_processor.py:37 | an absolute name wins; otherwise it is appended to the directory with one separator |
| SyncProcessor.Crop | app/dic_api/dic_bisnes_logik/sync_processor.py:133-137 | the cropped image has the given height and width |
| SyncProcessor.LoadedImages | app/dic_api/dic_bisnes_logik/sync_processor.py:118-139 | no contract; collapse both images to gray and crop them to the common size when their shapes differ (see LoadedImagesAgree) |
| SyncProcessor.LoadedImagesAgree | app/dic_api/dic_bisnes_logik/sync_processor.py:128-139 | both loaded images have shape (min height) x (min width), keep their top-left entries, and are left as they are when their shapes agree |
| SyncProcessor.SyncDICProcessor.LoadImagesSync | app/dic_api/dic_bisnes_logik/sync_processor.py:118-139 | returns the collapsed and, if needed, cropped pair `LoadedImages` |
| SyncProcessor.TestOutcome | app/dic_api/dic_bisnes_logik/sync_processor.py:33-100 | no contract; the result of `process_test` as a function of its inputs and the environment (see OutcomeIsReport, EarlyFailures and CompletedRun) |
| SyncProcessor.Report | app/dic_api/dic_bisnes_logik/sync_processor.py:47-100 | no contract; the record built from the post-processing result, the plots, the statistics and the JSON write (see ReportFailures, CompletedEchoes and CompletedFigures) |
| SyncProcessor.OutcomeIsReport | app/dic_api/dic_bisnes_logik/sync_processor.py:42-100 | once the images have pixels and the step is non-zero, the run's result is the report on the post-processed field, with grid coordinates and C.size > 0 whenever a pair is returned |
| SyncProcessor.CompletedEchoes | app/dic_api/dic_bisnes_logik/sync_processor.py:58-88 | a completed report has status "completed"; it echoes the caller's subset_size, step and max_iter (not the normalised window) with min_correlation 0.4, has analysis_points = len(x_coords) * len(y_coords), the input's shape and the measured time, and places its JSON in the test's directory |
| SyncProcessor.CompletedFigures | app/dic_api/dic_bisnes_logik/sync_processor.py:51-73 | a completed report's statistics are taken over the present filtered magnitudes and C; the reliable share is in [0, 100]; the magnitude figures are >= 0, with mean and median at most the maximum |
| SyncProcessor.CompletedRun | app/dic_api/dic_bisnes_logik/sync_processor.py:45-69 | a run completes only on images with pixels, a non-zero step and a post-processing that keeps a present magnitude (so the 0.0 fallback is never used), and then analysis_points equals C.size > 0 |
| SyncProcessor.ReportFailures | app/dic_api/dic_bisnes_logik/sync_processor.py:47-100 | a report fails exactly when its status is "error", carries the test id and the run's timestamp, and fails with no valid points exactly when post-processing returned nothing |
| SyncProcessor.FailureRecord | app/dic_api/dic_bisnes_logik/sync_processor.py:92-100 | every failed run has status "error", the test's id and a timestamp, and no statistics |
| SyncProcessor.EarlyFailures | app/dic_api/dic_bisnes_logik/sync_processor.py:42-100 | the run fails as an empty image iff an image has no pixels, and as a zero step iff the images have pixels and the step is 0 |
| SyncProcessor.NoValidPointsFailure | app/dic_api/dic_bisnes_logik/sync_processor.py:47-100 | the run fails because no point survived iff the images have pixels, the step is non-zero and post-processing returned nothing |
| SyncProcessor.SyncDICProcessor.ReportResults | app/dic_api/dic_bisnes_logik/sync_processor.py:47-90 | the unpacking, the plot saving, the statistics and the JSON write give the `Report` record, failing at the first step that fails |
| SyncProcessor.SyncDICProcessor.ProcessTest | app/dic_api/dic_bisnes_logik/sync_processor.py:33-100 | returns `TestOutcome`: the completed record, or the error record of the first step that raises |
| SyncProcessor.LoadFailureReport | app/dic_api/dic_bisnes_logik/sync_processor.py:102-116 | failing to open either image (the first is opened first) gives an error record without a timestamp, and only such a failure does |
| SyncProcessor.FromFilesOutcome | app/dic_api/dic_bisnes_logik/sync_processor.py:102-116 | no contract; a load error, or `process_test` on the loaded pair (see LoadFailureReport) |
| SyncProcessor.SyncDICProcessor.ProcessTestFromFiles | app/dic_api/dic_bisnes_logik/sync_processor.py:102-116 | returns `FromFilesOutcome`: a load error, or `process_test` on the loaded pair |
| SyncProcessor.SyncDICProcessor.constructor | app/dic_api/dic_bisnes_logik/sync_processor.py:26-31 | keeps the results directory |
| Serializers.ValidateSubsetSize | app/dic_api/serealisers.py:21-28 | the result is odd and in [21, 31], and is the request clamped into [21, 31] or one more |
| Serializers.ValidateFixedPoints | app/dic_api/serealisers.py:21-28 | odd sizes already in [21, 31] are returned unchanged |
| Serializers.ValidateMapping | app/dic_api/serealisers.py:22-27 | sizes up to 21 become 21, sizes from 31 up become 31, and an even size in [21, 30] becomes the next odd size |
| Serializers.ValidateExamples | app/dic_api/serealisers.py:22-27 | 30 and 32 map to 31; 20, 19 and -4 map to 21; 25 is kept |
| Serializers.ValidateIdempotent | app/dic_api/serealisers.py:21-28 | validating twice is validating once |
| Serializers.ValidatedPassesModelValidators | app/dic_api/serealisers.py:21-28 | what the validator returns always passes the record's own bounds [21, 31] |
| Serializers.EngineAgreesWithValidator | app/dic_api/serealisers.py:21-28 | the engine's constructor and the validator, each with its own code (app/dic_algoritm/dic_algorithm.py:21-25), normalise every window size to the same value |
| Models.StatusValuesDistinct | app/dic_api/models.py:9-14 | the five stored strings are pending, processing, completed, error and cancelled, and they tell the choices apart |
| Models.DICAnalysis.constructor | app/dic_api/models.py:16-31 | a new record has name "DIC Analysis", status pending, subset_size 25, step 12, max_iter 35, min_correlation 0.4 and no timestamps |
| Models.SaveTimestamps | app/dic_api/models.py:71-81 | no contract; the timestamps `save` leaves for a status, the old timestamps and the clock (see the Save lemmas below) |
| Models.DefaultSubsetSizeIsValid | app/dic_api/models.py:25-28 | the default size 25 passes the declared bounds [21, 31] |
| Models.DICAnalysis.Save | app/dic_api/models.py:71-81 | only the three timestamp fields may change, as `SaveTimestamps` says |
| Models.SaveEntersProcessing | app/dic_api/models.py:72-74 | saving as processing with no start stamps the start and nothing else |
| Models.SaveEntersCompleted | app/dic_api/models.py:75-79 | saving as completed with no end stamps the end, keeps the start, and sets processing_time = end - start when the start is known |
| Models.SaveNeverOverwrites | app/dic_api/models.py:72-77 | a start or end already stamped is never overwritten |
| Models.SaveIdempotent | app/dic_api/models.py:71-81 | saving again in the same status, at any later instant, changes no timestamp |
| Models.SaveOtherStatusesUnchanged | app/dic_api/models.py:71-81 | saves as pending, error or cancelled leave all three timestamps alone |
| Models.SaveLifeCycle | app/dic_api/models.py:71-81 | pending, then processing at t0, then completed at t1 records start t0, end t1 and duration t1 - t0 |

The nested loops of `compute_displacement_field_sequential` are split
into two methods: `SolveGrid` runs the outer loop over the rows and
`SolveRow` the inner loop over one row. This keeps each proof small.

By the documented behaviour of Django REST Framework, the record's
validators `MinValueValidator(21)` and `MaxValueValidator(31)` become
limits of the serializer field. These reject a request outside [21, 31]
before `validate_subset_size` runs. So through the API the validator's
clamping branches are never taken: on [21, 31], making an even size odd
gives at most 31. The clamp matters only for callers that build the
engine directly, through the constructor that `DicAlgorithm.Configure`
models.

## Left out

- DicAlgorithm.DisplacementAt: the L-BFGS-B search is a parameter. The
  model assumes only that its result lies in the box and that `fun` is
  the objective there. Nothing is proved about it maximising the ZNCC or
  converging; `maxiter`, `gtol`, `ftol` and `tol` are only passed on.
- DicAlgorithm.DigitalImageCorrelation.PostProcessDisplacements: the
  median filter (3 x 3, NaN padding) is a parameter that only keeps the
  grid's shape. How it orders NaN cells is not modelled.
- DicAlgorithm.DigitalImageCorrelation.ComputeDisplacementFieldSequential:
  requires images with pixels and a non-zero step. On such input the
  source raises (numpy's min of an empty array, arange with step 0);
  `SyncProcessor.TestOutcome` reports both as error causes.
- The model assumes numeric pixel arrays. A bilevel (mode "1") image
  decodes to a boolean array, on which the subtraction `img1 - img1.min()`
  in `preprocess_images` (app/dic_algoritm/dic_algorithm.py:44) raises, so
  `process_test` writes an error record. The real-valued `RawImage` of the
  model cannot express such an input. This follows from the documented
  behaviour of Pillow and numpy.
- Floating point is not modelled; arithmetic is exact over reals. This
  covers the float32 cast of the preprocessed images, the rounding of the
  1e-10 epsilons and the accuracy of the square root. So no claim is made
  that ZNCC(s, s) = 1 or that |ZNCC| <= 1.
- DicImages.WellFormed: excludes colour images with zero channels (numpy
  would produce NaN pixels) and ragged arrays, which numpy cannot build.
- The process-wide random seeding and the progress logging in the engine
  are left out, as is the logging in the processor: they have no effect
  on results.
- The saving of plots (`_save_images_sync`), PIL decoding, and the JSON
  serialisation and the file it writes are I/O. Their outcomes are inputs
  (`Environment`, `Outcome`). The JSON file's content, which lacks
  `results_json_path`, is not modelled.
- The creation of the results and test directories is file-system I/O
  and is not modelled; in the source it reaches the caller, outside the
  `try`.
- SyncProcessor.Environment: the source calls the clock at three places
  (start, end and the timestamp). The model reads all three from
  `Environment`; the error record's timestamp is that same reading.
- SyncProcessor.ErrorCause: the error record holds `str(e)` of the
  exception and, in `process_test_from_files`, a fixed message prefix.
  The model records which step raised instead, with the message passed
  through for I/O failures. Exceptions from steps not named there (inside
  the minimiser, for example) are not modelled.
- Models.DICAnalysis: ORM persistence (`super().save`), the `auto_now`
  fields, the uuid key, the image fields, the result fields and the
  display labels of the choices are left out. `timezone.now()` is the
  parameter `now`.
- The async wrappers, thread pools and background daemon thread are
  concurrency plumbing around the same engine and are not modelled. So
  are the HTTP views, URL routing, middleware, report and PDF builders,
  ZIP packaging, database update helpers, installers, servers, the CLI,
  the plotting module and the frontend.
- app/dic_api/sync_processor.py is an older copy of the processor's
  statistics and cropping code, off the live path. It is not modelled
  separately.
