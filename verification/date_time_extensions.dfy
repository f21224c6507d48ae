/**
 * The Unix-time codec of the client: `ToUnixTimestamp` and the three
 * `FromUnixTimestamp` overloads (an `int` of seconds, a `long` of
 * milliseconds, a nullable `int` of seconds).
 */
module DateTimeExtensions {
  import opened Wrappers
  import opened Clr
  import opened Calendar
  import opened DateTimes

  /** The first tick whose whole-second count since the epoch no longer fits in an `int`. */
  const Int32SecondsEnd: int := Epoch + (Int32Max + 1) * TicksPerSecond

  /**
   * Whole seconds elapsed since the epoch, truncated toward zero; anything
   * negative becomes -1.
   */
  function ToUnixTimestamp(time: DateTime): (r: Int32)
    ensures -1 <= r
    ensures r == -1 <==> time <= Epoch - TicksPerSecond
    ensures Epoch - TicksPerSecond < time < Epoch ==> r == 0
    ensures Epoch <= time < Int32SecondsEnd ==>
              r * TicksPerSecond <= time - Epoch < (r + 1) * TicksPerSecond
    ensures Int32SecondsEnd <= time ==> r == Int32Max
  {
    var totalSeconds := (time - Epoch) as real / TicksPerSecond as real;
    var result := CastToInt32(totalSeconds);
    if result < 0 then -1 else result
  }

  /** The epoch plus `unixTimestamp` seconds; the addition can never leave the `DateTime` range. */
  function FromUnixSeconds(unixTimestamp: Int32): (time: DateTime)
    ensures time - Epoch == unixTimestamp * TicksPerSecond
    ensures time < Epoch <==> unixTimestamp < 0
  {
    AddSeconds(Epoch, unixTimestamp).value
  }

  /** The epoch plus `unixTimestamp` milliseconds, or the range error `AddMilliseconds` throws. */
  function FromUnixMillis(unixTimestamp: Int64): (r: Result<DateTime, Exception>)
    ensures r.Ok? <==> 0 <= Epoch + unixTimestamp * TicksPerMillisecond <= MaxTicks
    ensures r.Ok? ==> r.value - Epoch == unixTimestamp * TicksPerMillisecond
    ensures r.Err? ==> r.error == ArgumentOutOfRange
  {
    AddMilliseconds(Epoch, unixTimestamp)
  }

  /** The nullable overload: null stays null, a value is read as seconds. */
  function FromUnixNullable(unixTimestamp: Option<Int32>): (r: Option<DateTime>)
    ensures r.None? <==> unixTimestamp.None?
    ensures unixTimestamp.Some? ==> r == Some(FromUnixSeconds(unixTimestamp.value))
  {
    if unixTimestamp.None? then None else Some(FromUnixSeconds(unixTimestamp.value))
  }

  /** Seconds survive the round trip when non-negative; negative ones come back as -1. */
  lemma UnixSecondsRoundTrip(n: Int32)
    ensures ToUnixTimestamp(FromUnixSeconds(n)) == if 0 <= n then n else -1
  {
  }

  /** Every tick within a second after `FromUnixSeconds(n)` truncates back to `n`. */
  lemma SubSecondTicksTruncate(n: Int32, ticks: int)
    requires 0 <= n && 0 <= ticks < TicksPerSecond
    ensures ToUnixTimestamp(FromUnixSeconds(n) + ticks) == n
  {
  }

  /** A later instant never has a smaller Unix timestamp. */
  lemma ToUnixTimestampMonotonic(earlier: DateTime, later: DateTime)
    requires earlier <= later
    ensures ToUnixTimestamp(earlier) <= ToUnixTimestamp(later)
  {
  }

  /** `n` seconds and `1000 * n` milliseconds are the same instant. */
  lemma MillisecondsAgreeWithSeconds(n: Int32)
    ensures FromUnixMillis(1000 * n) == Ok(FromUnixSeconds(n))
  {
  }

  /** 1609459200 seconds and 1609459200000 milliseconds are both 2021-01-01T00:00:00Z. */
  lemma NewYear2021()
    ensures FromUnixSeconds(1_609_459_200) == CivilTicks(2021, 1, 1, 0, 0, 0)
    ensures FromUnixMillis(1_609_459_200_000) == Ok(CivilTicks(2021, 1, 1, 0, 0, 0))
    ensures ToUnixTimestamp(CivilTicks(2021, 1, 1, 0, 0, 0)) == 1_609_459_200
  {
  }
}
