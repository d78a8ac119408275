/** The external random source the randomizer draws from (commons-math3's
    RandomDataGenerator.nextLong). Only its range contract is modelled; the
    distribution of the draw is not. */
module RandomSource {
  import opened Wrappers
  import opened Dates

  /** The source declines to draw from the range [lower, upper]. */
  datatype DrawError = RangeRefused(lower: Long, upper: Long)

  /** What a draw may return for the bounds `lower` and `upper`: a value,
      when there is one, lies within both bounds inclusive; a proper range
      (lower < upper) always yields a value. A single-point range
      (lower == upper) may yield that point or be refused. */
  predicate Admissible(lower: Long, upper: Long, r: Result<Long, DrawError>)
  {
    && (r.Success? ==> lower <= r.value <= upper)
    && (lower < upper ==> r.Success?)
  }

  /** One draw: an arbitrary long between the bounds, chosen nondeterministically. */
  method NextLong(lower: Long, upper: Long) returns (r: Result<Long, DrawError>)
    ensures Admissible(lower, upper, r)
    ensures upper < lower ==> r == Failure(RangeRefused(lower, upper))
  {
    if lower < upper {
      var v: Long :| lower <= v <= upper;
      r := Success(v);
    } else if lower == upper {
      // left open: the model does not decide what the source does here
      var refuse: bool :| true;
      r := if refuse then Failure(RangeRefused(lower, upper)) else Success(lower);
    } else {
      r := Failure(RangeRefused(lower, upper));
    }
  }
}
