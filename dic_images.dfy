/** Input images and the engine's intensity preprocessing
    (`DigitalImageCorrelation.preprocess_images`). */
module DicImages {
  import opened Numerics
  import opened Matrices

  /** A decoded image: a 2-D array of intensities, or a 3-D array whose last
      axis holds the channels of each pixel. */
  datatype RawImage = Gray(pixels: seq<seq<real>>) | Color(channels: seq<seq<seq<real>>>)

  /** The number of channels of a colour image (0 for one without pixels). */
  function Depth(p: seq<seq<seq<real>>>): nat
  {
    if |p| == 0 || |p[0]| == 0 then 0 else |p[0][0]|
  }

  /** The shape of a numpy array: rectangular, and in a colour image every
      pixel has the same, non-zero, number of channels. */
  predicate WellFormed(raw: RawImage)
  {
    match raw
    case Gray(p) => Rectangular(p)
    case Color(p) =>
      && Rectangular(p)
      && forall i, j :: 0 <= i < |p| && 0 <= j < |p[i]| ==> |p[i][j]| == Depth(p) > 0
  }

  /** numpy's `shape` of the array. */
  function Shape(raw: RawImage): seq<int>
  {
    match raw
    case Gray(p) => [Height(p), Width(p)]
    case Color(p) => [Height(p), Width(p), Depth(p)]
  }

  /** The per-pixel mean over the last axis (`np.mean(img, axis=2)`). */
  function ChannelMean(p: seq<seq<seq<real>>>): (g: seq<seq<real>>)
    requires WellFormed(Color(p))
    ensures IsMatrix(g, Height(p), Width(p))
  {
    seq(|p|, i requires 0 <= i < |p| =>
      seq(|p[i]|, j requires 0 <= j < |p[i]| => Mean(p[i][j])))
  }

  /** A 3-D image collapsed to one channel; a 2-D image as it is. */
  function Grayscale(raw: RawImage): (g: seq<seq<real>>)
    requires WellFormed(raw)
    ensures Rectangular(g)
  {
    match raw
    case Gray(p) => p
    case Color(p) => ChannelMean(p)
  }

  /** A colour image whose channels all repeat the intensity of a gray
      image collapses to that gray image. */
  lemma ReplicatedChannelsCollapse(p: seq<seq<seq<real>>>, g: seq<seq<real>>)
    requires WellFormed(Color(p)) && IsMatrix(g, Height(p), Width(p))
    requires forall i, j, k :: 0 <= i < |p| && 0 <= j < |p[i]| && 0 <= k < |p[i][j]| ==> p[i][j][k] == g[i][j]
    ensures Grayscale(Color(p)) == g
  {
    forall i, j | 0 <= i < Height(p) && 0 <= j < Width(p)
      ensures Grayscale(Color(p))[i][j] == g[i][j]
    {
      SumOfConstant(p[i][j], g[i][j]);
    }
    SameEntries(Grayscale(Color(p)), g, Height(p), Width(p));
  }

  /** Each collapsed pixel lies between its darkest and its brightest
      channel. */
  lemma GrayscaleWithinChannels(p: seq<seq<seq<real>>>, i: nat, j: nat)
    requires WellFormed(Color(p)) && i < Height(p) && j < Width(p)
    ensures |p[i][j]| > 0 && Min(p[i][j]) <= Grayscale(Color(p))[i][j] <= Max(p[i][j])
  {
    MeanBetweenMinAndMax(p[i][j]);
  }

  /** The image has at least one pixel, so numpy's `min`/`max` are defined. */
  predicate HasPixels(img: seq<seq<real>>)
  {
    Height(img) > 0 && Width(img) > 0
  }

  /** numpy's `img.min()` over all pixels. */
  function MinPixel(img: seq<seq<real>>): real
    requires Rectangular(img) && HasPixels(img)
  {
    FlattenLength(img, Height(img), Width(img));
    Min(Flatten(img))
  }

  /** numpy's `img.max()` over all pixels. */
  function MaxPixel(img: seq<seq<real>>): real
    requires Rectangular(img) && HasPixels(img)
  {
    FlattenLength(img, Height(img), Width(img));
    Max(Flatten(img))
  }

  /** `(img - min) / (max - min + 1e-10)`. */
  function Normalise(img: seq<seq<real>>): (r: seq<seq<real>>)
    requires Rectangular(img) && HasPixels(img)
    ensures IsMatrix(r, Height(img), Width(img))
  {
    var lo, hi := MinPixel(img), MaxPixel(img);
    seq(|img|, i requires 0 <= i < |img| =>
      seq(|img[i]|, j requires 0 <= j < |img[i]| => (img[i][j] - lo) / (hi - lo + Epsilon)))
  }

  /** Both images collapsed to one channel and normalised independently. */
  function PreprocessImages(raw1: RawImage, raw2: RawImage): (r: (seq<seq<real>>, seq<seq<real>>))
    requires WellFormed(raw1) && WellFormed(raw2)
    requires HasPixels(Grayscale(raw1)) && HasPixels(Grayscale(raw2))
    ensures IsMatrix(r.0, Height(Grayscale(raw1)), Width(Grayscale(raw1)))
    ensures IsMatrix(r.1, Height(Grayscale(raw2)), Width(Grayscale(raw2)))
  {
    (Normalise(Grayscale(raw1)), Normalise(Grayscale(raw2)))
  }

  // ---------------------------------------------------------------------
  // Properties of the normalisation

  lemma PixelWithinExtremes(img: seq<seq<real>>, i: nat, j: nat)
    requires Rectangular(img) && HasPixels(img)
    requires i < Height(img) && j < Width(img)
    ensures MinPixel(img) <= img[i][j] <= MaxPixel(img)
  {
    FlattenAt(img, Height(img), Width(img), i, j);
  }

  /** Every normalised pixel lies in [0, 1); no division fails, since the
      denominator is at least the epsilon. */
  lemma NormaliseRange(img: seq<seq<real>>, i: nat, j: nat)
    requires Rectangular(img) && HasPixels(img)
    requires i < Height(img) && j < Width(img)
    ensures 0.0 <= Normalise(img)[i][j] < 1.0
  {
    PixelWithinExtremes(img, i, j);
    var lo, hi, p := MinPixel(img), MaxPixel(img), img[i][j];
    var d := hi - lo + Epsilon;
    assert Normalise(img)[i][j] == (p - lo) / d;
    FractionInUnit(p - lo, d);
  }

  /** The darkest pixels map to exactly 0. */
  lemma NormaliseMinimumIsZero(img: seq<seq<real>>, i: nat, j: nat)
    requires Rectangular(img) && HasPixels(img)
    requires i < Height(img) && j < Width(img)
    requires img[i][j] == MinPixel(img)
    ensures Normalise(img)[i][j] == 0.0
  {
    var lo, hi := MinPixel(img), MaxPixel(img);
    var d := hi - lo + Epsilon;
    PixelWithinExtremes(img, i, j);
    assert d > 0.0;
    assert Normalise(img)[i][j] == (img[i][j] - lo) / d;
    assert img[i][j] - lo == 0.0;
  }

  /** A constant image normalises to all zeros (the degenerate case). */
  lemma {:induction false} NormaliseConstantIsZero(img: seq<seq<real>>, k: real)
    requires Rectangular(img) && HasPixels(img)
    requires IsConstant(img, k)
    ensures IsConstant(Normalise(img), 0.0)
  {
    FlattenLength(img, Height(img), Width(img));
    FlattenOfConstant(img, k);
    assert Flatten(img)[0] == k;
    assert MinPixel(img) == k;
  }

  /** Normalisation keeps the order of intensities. */
  lemma NormaliseMonotone(img: seq<seq<real>>, i: nat, j: nat, p: nat, q: nat)
    requires Rectangular(img) && HasPixels(img)
    requires i < Height(img) && j < Width(img) && p < Height(img) && q < Width(img)
    requires img[i][j] <= img[p][q]
    ensures Normalise(img)[i][j] <= Normalise(img)[p][q]
  {
    PixelWithinExtremes(img, i, j);
    var lo, hi := MinPixel(img), MaxPixel(img);
    DivideMonotone(img[i][j] - lo, img[p][q] - lo, hi - lo + Epsilon);
  }
}
