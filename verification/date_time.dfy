/**
 * `System.DateTime` as a tick count (units of 100 ns since 0001-01-01T00:00:00),
 * together with the arithmetic the client performs on it. Every instant is
 * taken to be UTC.
 */
module DateTimes {
  import opened Wrappers
  import opened Clr
  import opened Calendar

  /** `DateTime.MaxValue.Ticks`, the last tick of 9999-12-31. */
  const MaxTicks: int := 3_155_378_975_999_999_999

  type DateTime = ticks: int | 0 <= ticks <= MaxTicks

  /** `default(DateTime)`, which is also `DateTime.MinValue`: 0001-01-01T00:00:00. */
  const Default: DateTime := 0

  /** 1970-01-01T00:00:00Z. */
  const Epoch: DateTime := 621_355_968_000_000_000

  /** `DateTime.AddTicks`: out of range results throw. */
  function AddTicks(time: DateTime, delta: int): (r: Result<DateTime, Exception>)
    ensures r.Ok? <==> 0 <= time + delta <= MaxTicks
    ensures r.Ok? ==> r.value - time == delta
    ensures r.Err? ==> r.error == ArgumentOutOfRange
  {
    if 0 <= time + delta <= MaxTicks then Ok(time + delta) else Err(ArgumentOutOfRange)
  }

  /** `DateTime.AddMilliseconds` for a whole number of milliseconds. */
  function AddMilliseconds(time: DateTime, milliseconds: int): (r: Result<DateTime, Exception>)
    ensures r.Ok? <==> 0 <= time + milliseconds * TicksPerMillisecond <= MaxTicks
    ensures r.Ok? ==> r.value - time == milliseconds * TicksPerMillisecond
    ensures r.Err? ==> r.error == ArgumentOutOfRange
  {
    AddTicks(time, milliseconds * TicksPerMillisecond)
  }

  /** `DateTime.AddSeconds` for a whole number of seconds. */
  function AddSeconds(time: DateTime, seconds: int): (r: Result<DateTime, Exception>)
    ensures r.Ok? <==> 0 <= time + seconds * TicksPerSecond <= MaxTicks
    ensures r.Ok? ==> r.value - time == seconds * TicksPerSecond
    ensures r.Err? ==> r.error == ArgumentOutOfRange
  {
    AddMilliseconds(time, seconds * 1000)
  }

  /** `DateTime.Subtract(TimeSpan)`: steps back by `span` ticks; before year 1 it throws. */
  function Subtract(time: DateTime, span: int): (r: Result<DateTime, Exception>)
    ensures r.Ok? <==> 0 <= time - span <= MaxTicks
    ensures r.Ok? ==> time - r.value == span
    ensures r.Err? ==> r.error == ArgumentOutOfRange
  {
    AddTicks(time, -span)
  }

  /** The tick constants are the calendar instants they are meant to be. */
  lemma TickConstantsAreCalendarInstants()
    ensures Default == CivilTicks(1, 1, 1, 0, 0, 0)
    ensures Epoch == CivilTicks(1970, 1, 1, 0, 0, 0)
    ensures MaxTicks == CivilTicks(9999, 12, 31, 23, 59, 59) + TicksPerSecond - 1
  {
  }
}
