/** DateRangeRandomizer: a randomizer of dates between two validated bounds. */
module Randomizers {
  import opened Wrappers
  import opened Dates
  import RandomSource

  /** The three reasons the constructor throws IllegalArgumentException. */
  datatype ArgumentError = MinDateNull | MaxDateNull | MinDateAfterMaxDate

  /** The exception's message for each reason. */
  function Message(e: ArgumentError): string
  {
    match e
    case MinDateNull => "minDate must not be null"
    case MaxDateNull => "maxDate must not be null"
    case MinDateAfterMaxDate => "minDate must be before maxDate"
  }

  /** The message alone tells which check failed. */
  lemma MessageIdentifiesReason(e: ArgumentError, e': ArgumentError)
    ensures Message(e) == Message(e') ==> e == e'
  {
  }

  /** Every condition on the arguments that is violated, each judged on its
      own, listed in the order the constructor checks them. */
  function Violations(minDate: Option<Date>, maxDate: Option<Date>): seq<ArgumentError>
  {
    (if minDate.None? then [MinDateNull] else [])
    + (if maxDate.None? then [MaxDateNull] else [])
    + (if minDate.Some? && maxDate.Some? && After(minDate.value, maxDate.value)
       then [MinDateAfterMaxDate] else [])
  }

  /** The constructor's checks as a value: the accepted pair of bounds, or the
      reason reported. It fails exactly when some condition is violated,
      reports the first violation in check order, accepts equal bounds, and on
      success keeps the given bounds, in order. */
  function Validate(minDate: Option<Date>, maxDate: Option<Date>): (r: Result<(Date, Date), ArgumentError>)
    ensures r.Failure? <==> Violations(minDate, maxDate) != []
    ensures r.Failure? ==> r.error == Violations(minDate, maxDate)[0]
    ensures minDate.None? ==> r == Failure(MinDateNull)
    ensures minDate.Some? && maxDate.None? ==> r == Failure(MaxDateNull)
    ensures r == Failure(MinDateAfterMaxDate)
            <==> minDate.Some? && maxDate.Some? && minDate.value.time > maxDate.value.time
    ensures r.Success?
            <==> minDate.Some? && maxDate.Some? && minDate.value.time <= maxDate.value.time
    ensures r.Success? ==> r.value == (minDate.value, maxDate.value)
  {
    if minDate.None? then Failure(MinDateNull)
    else if maxDate.None? then Failure(MaxDateNull)
    else if After(minDate.value, maxDate.value) then Failure(MinDateAfterMaxDate)
    else Success((minDate.value, maxDate.value))
  }

  /** What getRandomValue returns for one draw of the random source: the drawn
      count wrapped in a Date, or the source's failure passed on unchanged. */
  function DateOf(draw: Result<Long, RandomSource.DrawError>): Result<Date, RandomSource.DrawError>
  {
    match draw
    case Success(t) => Success(Date(t))
    case Failure(e) => Failure(e)
  }

  /** The results of successive getRandomValue calls, one per draw. */
  ghost function Trace(draws: seq<Result<Long, RandomSource.DrawError>>): seq<Result<Date, RandomSource.DrawError>>
  {
    if draws == [] then [] else [DateOf(draws[0])] + Trace(draws[1..])
  }

  class DateRangeRandomizer {
    /** The bounds; `const` because the Java fields are final. */
    const minDate: Date
    const maxDate: Date

    /** The class invariant the constructor establishes. */
    predicate Valid()
    {
      minDate.time <= maxDate.time
    }

    /** The two field assignments that end the Java constructor, reached only
        once every check has passed. */
    constructor (minDate: Date, maxDate: Date)
      requires !After(minDate, maxDate)
      ensures this.minDate == minDate && this.maxDate == maxDate
      ensures Valid()
    {
      this.minDate := minDate;
      this.maxDate := maxDate;
    }

    /** The Java constructor: the null checks and the order check, in that
        order, each ending construction with its error (the Java exception is
        an IllegalArgumentException carrying `Message(r.error)`); otherwise a
        fresh randomizer holding exactly the given bounds. */
    static method Create(minDate: Option<Date>, maxDate: Option<Date>)
      returns (r: Result<DateRangeRandomizer, ArgumentError>)
      ensures r.Failure? <==> Validate(minDate, maxDate).Failure?
      ensures r.Failure? ==> r.error == Validate(minDate, maxDate).error
      ensures r.Success? ==> fresh(r.value) && r.value.Valid()
      ensures r.Success? ==> (r.value.minDate, r.value.maxDate) == Validate(minDate, maxDate).value
    {
      if minDate.None? {
        return Failure(MinDateNull);
      }
      if maxDate.None? {
        return Failure(MaxDateNull);
      }
      if After(minDate.value, maxDate.value) {
        return Failure(MinDateAfterMaxDate);
      }
      var randomizer := new DateRangeRandomizer(minDate.value, maxDate.value);
      r := Success(randomizer);
    }

    /** getRandomValue: reads both bounds as milliseconds, draws once from the
        random source and wraps the draw in a Date. A returned date lies
        within the bounds inclusive; for a proper range a date is always
        returned; a failure of the source is passed on. It changes nothing:
        it has no modifies clause and the bounds are constants. `draw` names
        the value the source produced. */
    method GetRandomValue() returns (r: Result<Date, RandomSource.DrawError>, ghost draw: Result<Long, RandomSource.DrawError>)
      ensures RandomSource.Admissible(minDate.time, maxDate.time, draw)
      ensures r.Success? <==> draw.Success?
      ensures r.Success? ==> r.value.time == draw.value
      ensures r.Failure? ==> r.error == draw.error
      ensures r.Success? ==> minDate.time <= r.value.time <= maxDate.time
      ensures minDate.time < maxDate.time ==> r.Success?
      ensures Valid() && r.Failure? ==> minDate.time == maxDate.time
    {
      var minDateTime := minDate.time;
      var maxDateTime := maxDate.time;
      var randomDateTime := RandomSource.NextLong(minDateTime, maxDateTime);
      draw := randomDateTime;
      r := DateOf(randomDateTime);
    }
  }

  /** Any number of calls on one randomizer, whatever the source draws within
      its contract each time: every returned date lies within the stored
      bounds, for a proper range every call returns a date, and a call can
      fail only when the two bounds are equal. */
  lemma {:induction false} RepeatedCallsStayInRange(randomizer: DateRangeRandomizer,
                                                     draws: seq<Result<Long, RandomSource.DrawError>>)
    requires randomizer.Valid()
    requires forall i :: 0 <= i < |draws| ==>
               RandomSource.Admissible(randomizer.minDate.time, randomizer.maxDate.time, draws[i])
    ensures |Trace(draws)| == |draws|
    ensures forall i :: 0 <= i < |draws| && Trace(draws)[i].Success? ==>
              randomizer.minDate.time <= Trace(draws)[i].value.time <= randomizer.maxDate.time
    ensures randomizer.minDate.time < randomizer.maxDate.time ==>
              forall i :: 0 <= i < |draws| ==> Trace(draws)[i].Success?
    ensures forall i :: 0 <= i < |draws| && Trace(draws)[i].Failure? ==>
              randomizer.minDate.time == randomizer.maxDate.time
  {
    if draws != [] {
      RepeatedCallsStayInRange(randomizer, draws[1..]);
      assert forall i :: 0 < i < |draws| ==> Trace(draws)[i] == Trace(draws[1..])[i - 1];
    }
  }

  /** Two uses from a caller's side: a one-day window of 2020 and the same
      window reversed. */
  method OneDayWindow()
  {
    var jan1 := Date(1_577_836_800_000);
    var jan2 := Date(1_577_923_200_000);
    var reversed := DateRangeRandomizer.Create(Some(jan2), Some(jan1));
    assert reversed == Failure(MinDateAfterMaxDate);
    var created := DateRangeRandomizer.Create(Some(jan1), Some(jan2));
    assert created.Success?;
    var randomizer := created.value;
    var value, _ := randomizer.GetRandomValue();
    assert value.Success? && jan1.time <= value.value.time <= jan2.time;
  }
}
