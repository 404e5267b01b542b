/** The API-side window-size validator
    (`DICAnalysisCreateSerializer.validate_subset_size`). */
module Serializers {
  import Models
  import DicAlgorithm

  /** The requested window size clamped into [21, 31]. */
  function ClampedRequest(value: int): int
  {
    if value < 21 then 21 else if value > 31 then 31 else value
  }

  /** An even size is made odd by adding one, then the size is clamped into
      [21, 31]. The result is the smallest odd number that is not below the
      request clamped into [21, 31]. */
  function ValidateSubsetSize(value: int): (r: int)
    ensures r % 2 == 1 && 21 <= r <= 31
    ensures ClampedRequest(value) <= r <= ClampedRequest(value) + 1
  {
    var v := if value % 2 == 0 then value + 1 else value;
    if v < 21 then 21 else if v > 31 then 31 else v
  }

  // ---------------------------------------------------------------------
  // Properties of the validator

  /** Odd sizes in [21, 31] pass unchanged. */
  lemma ValidateFixedPoints(value: int)
    requires value % 2 == 1 && 21 <= value <= 31
    ensures ValidateSubsetSize(value) == value
  {
  }

  /** Sizes up to 21 become 21, sizes from 31 up become 31, and an even size
      inside the range moves up to the next odd one. */
  lemma ValidateMapping(value: int)
    ensures value <= 21 ==> ValidateSubsetSize(value) == 21
    ensures value >= 31 ==> ValidateSubsetSize(value) == 31
    ensures value % 2 == 0 && 21 <= value <= 30 ==> ValidateSubsetSize(value) == value + 1
  {
  }

  lemma ValidateExamples()
    ensures ValidateSubsetSize(30) == 31 && ValidateSubsetSize(32) == 31
    ensures ValidateSubsetSize(20) == 21 && ValidateSubsetSize(19) == 21
    ensures ValidateSubsetSize(25) == 25 && ValidateSubsetSize(-4) == 21
  {
  }

  /** Validating twice is validating once. */
  lemma ValidateIdempotent(value: int)
    ensures ValidateSubsetSize(ValidateSubsetSize(value)) == ValidateSubsetSize(value)
  {
    ValidateFixedPoints(ValidateSubsetSize(value));
  }

  /** What the validator returns always passes the model's own validators. */
  lemma ValidatedPassesModelValidators(value: int)
    ensures Models.PassesSubsetSizeValidators(ValidateSubsetSize(value))
  {
  }

  /** The engine's constructor and the validator normalise a window size
      the same way, although each has its own code. */
  lemma EngineAgreesWithValidator(value: int, step: int, maxIter: int)
    ensures DicAlgorithm.Configure(value, step, maxIter).subsetSize == ValidateSubsetSize(value)
  {
  }
}
