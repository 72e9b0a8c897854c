/** Go's 64-bit signed integers and `time.Duration`.

    `int` on the 64-bit platforms the proxy targets and `time.Duration` are
    both two's-complement 64-bit integers; Go multiplication on them wraps
    around silently. `time.Duration(n) * time.Second` is therefore `n`
    seconds in nanoseconds only while that product fits in 64 bits. */
module GoInt {

  const MinInt64: int := -0x8000_0000_0000_0000
  const MaxInt64: int := 0x7FFF_FFFF_FFFF_FFFF
  const Modulus64: int := 0x1_0000_0000_0000_0000

  /** A value of Go's `int` / `int64`. */
  type Int64 = x: int | MinInt64 <= x <= MaxInt64

  /** A `time.Duration`: a count of nanoseconds held in an `int64`. */
  type Duration = Int64

  /** `time.Second`, in nanoseconds. */
  const Second: int := 1_000_000_000

  /** The largest whole number of seconds whose duration fits in an `int64`. */
  const MaxSeconds: int := MaxInt64 / Second

  /** Two's-complement wrap-around of an exact product back into 64 bits:
      the unique `int64` congruent to `x` modulo 2^64. */
  function Wrap64(x: int): (r: Int64)
    ensures (x - r) % Modulus64 == 0
    ensures MinInt64 <= x <= MaxInt64 ==> r == x
  {
    (x - MinInt64) % Modulus64 + MinInt64
  }

  /** `time.Duration(n) * time.Second`, wrapping as Go does. */
  function Seconds(n: Int64): (d: Duration)
    ensures (n * Second - d) % Modulus64 == 0
    ensures -MaxSeconds <= n <= MaxSeconds ==> d == n * Second
  {
    Wrap64(n * Second)
  }

  /** Every value of the seconds range converts exactly, in both directions:
      the duration divides back to the seconds it came from. */
  lemma SecondsRoundTrip(n: Int64)
    requires -MaxSeconds <= n <= MaxSeconds
    ensures Seconds(n) / Second == n && Seconds(n) % Second == 0
  {
    assert Seconds(n) == n * Second;
  }

  /** One second past the exact range, the Go product has already wrapped
      around to a negative duration. */
  lemma SecondsOverflowWraps()
    ensures Seconds(MaxSeconds + 1) == (MaxSeconds + 1) * Second - Modulus64
    ensures Seconds(MaxSeconds + 1) < 0
  {
    assert MaxSeconds == 9_223_372_036;
  }
}
