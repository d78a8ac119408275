/** java.util.Date reduced to what the randomizer uses: a signed 64-bit count
    of milliseconds since the epoch, read by getTime() and compared by after(). */
module Dates {

  const MinLong: int := -0x8000_0000_0000_0000
  const MaxLong: int := 0x7fff_ffff_ffff_ffff

  /** Java's `long`. */
  type Long = x: int | MinLong <= x <= MaxLong

  /** A date; `time` is what getTime() returns and what `new Date(long)` takes. */
  datatype Date = Date(time: Long)

  /** Date.after: strictly later than `when`. */
  predicate After(d: Date, when: Date)
  {
    d.time > when.time
  }
}
