/** The persisted analysis record (`DICAnalysis`): its status choices, the
    field defaults, and the timestamp bookkeeping its `save` performs. */
module Models {
  import opened Optional

  /** The five status choices. */
  datatype Status = Pending | Processing | Completed | Error | Cancelled
  {
    /** The stored string of each choice. */
    function Value(): string
    {
      match this
      case Pending => "pending"
      case Processing => "processing"
      case Completed => "completed"
      case Error => "error"
      case Cancelled => "cancelled"
    }
  }

  const DefaultName: string := "DIC Analysis"
  const DefaultSubsetSize: int := 25
  const DefaultStep: int := 12
  const DefaultMaxIter: int := 35
  const DefaultMinCorrelation: real := 0.4

  /** The MinValueValidator(21) and MaxValueValidator(31) declared on
      `subset_size`. */
  predicate PassesSubsetSizeValidators(v: int)
  {
    21 <= v <= 31
  }

  /** The three fields `save` may fill in; instants and durations are in
      seconds. */
  datatype Timestamps = Timestamps(startedAt: Option<real>, completedAt: Option<real>, processingTime: Option<real>)

  /** The timestamps after a save in `status` at instant `now`: entering
      processing stamps the start, entering completed stamps the end and,
      when the start is known, the duration. A stamp already present is kept. */
  function SaveTimestamps(status: Status, t: Timestamps, now: real): Timestamps
  {
    if status == Processing && t.startedAt.None? then
      t.(startedAt := Some(now))
    else if status == Completed && t.completedAt.None? then
      t.(completedAt := Some(now),
         processingTime := if t.startedAt.Some? then Some(now - t.startedAt.value) else t.processingTime)
    else
      t
  }

  class DICAnalysis {
    var name: string
    var status: Status
    var subsetSize: int
    var step: int
    var maxIter: int
    var minCorrelation: real
    var startedAt: Option<real>
    var completedAt: Option<real>
    var processingTime: Option<real>
    var errorMessage: Option<string>

    function Stamps(): Timestamps
      reads this
    {
      Timestamps(startedAt, completedAt, processingTime)
    }

    /** A new record with every field at its declared default. */
    constructor ()
      ensures name == DefaultName && status == Pending
      ensures subsetSize == DefaultSubsetSize && step == DefaultStep && maxIter == DefaultMaxIter
      ensures minCorrelation == DefaultMinCorrelation
      ensures Stamps() == Timestamps(None, None, None) && errorMessage == None
    {
      name := DefaultName;
      status := Pending;
      subsetSize := DefaultSubsetSize;
      step := DefaultStep;
      maxIter := DefaultMaxIter;
      minCorrelation := DefaultMinCorrelation;
      startedAt, completedAt, processingTime := None, None, None;
      errorMessage := None;
    }

    /** `save` at instant `now`: only the three timestamp fields may change,
        as SaveTimestamps says. */
    method Save(now: real)
      modifies this`startedAt, this`completedAt, this`processingTime
      ensures Stamps() == SaveTimestamps(status, old(Stamps()), now)
    {
      if status == Processing && startedAt.None? {
        startedAt := Some(now);
      } else if status == Completed && completedAt.None? {
        completedAt := Some(now);
        if startedAt.Some? {
          processingTime := Some(completedAt.value - startedAt.value);
        }
      }
    }
  }

  // ---------------------------------------------------------------------
  // Properties of the record

  /** The stored strings tell the five choices apart. */
  lemma StatusValuesDistinct(a: Status, b: Status)
    ensures a.Value() == b.Value() ==> a == b
    ensures a.Value() in {"pending", "processing", "completed", "error", "cancelled"}
  {
  }

  /** The default window size passes the declared validators. */
  lemma DefaultSubsetSizeIsValid()
    ensures PassesSubsetSizeValidators(DefaultSubsetSize)
  {
  }

  /** Entering processing stamps the start and nothing else. */
  lemma SaveEntersProcessing(t: Timestamps, now: real)
    requires t.startedAt.None?
    ensures SaveTimestamps(Processing, t, now) == t.(startedAt := Some(now))
  {
  }

  /** Entering completed stamps the end, and the duration when the start is
      known; the start is kept. */
  lemma SaveEntersCompleted(t: Timestamps, now: real)
    requires t.completedAt.None?
    ensures SaveTimestamps(Completed, t, now).completedAt == Some(now)
    ensures SaveTimestamps(Completed, t, now).startedAt == t.startedAt
    ensures t.startedAt.Some? ==>
              SaveTimestamps(Completed, t, now).processingTime == Some(now - t.startedAt.value)
    ensures t.startedAt.None? ==> SaveTimestamps(Completed, t, now).processingTime == t.processingTime
  {
  }

  /** A stamp already present is never overwritten. */
  lemma SaveNeverOverwrites(status: Status, t: Timestamps, now: real)
    ensures t.startedAt.Some? ==> SaveTimestamps(status, t, now).startedAt == t.startedAt
    ensures t.completedAt.Some? ==> SaveTimestamps(status, t, now).completedAt == t.completedAt
  {
  }

  /** Saving again in the same status changes no timestamp, whenever it
      happens. */
  lemma SaveIdempotent(status: Status, t: Timestamps, now: real, later: real)
    ensures SaveTimestamps(status, SaveTimestamps(status, t, now), later) == SaveTimestamps(status, t, now)
  {
  }

  /** Saves in pending, error or cancelled leave the timestamps alone. */
  lemma SaveOtherStatusesUnchanged(status: Status, t: Timestamps, now: real)
    requires status == Pending || status == Error || status == Cancelled
    ensures SaveTimestamps(status, t, now) == t
  {
  }

  /** The life cycle pending -> processing -> completed records a duration
      equal to the time between the two saves. */
  lemma SaveLifeCycle(start: real, finish: real)
    ensures var initial := Timestamps(None, None, None);
            var running := SaveTimestamps(Processing, SaveTimestamps(Pending, initial, start), start);
            SaveTimestamps(Completed, running, finish) == Timestamps(Some(start), Some(finish), Some(finish - start))
  {
  }
}
