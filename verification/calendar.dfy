/**
 * The proleptic Gregorian calendar that `System.DateTime` counts ticks in,
 * used as an independent reference for the tick constants and for concrete
 * instants such as 2021-01-01T00:00:00Z.
 */
module Calendar {

  const TicksPerMillisecond: int := 10_000
  const TicksPerSecond: int := 1000 * TicksPerMillisecond
  const TicksPerMinute: int := 60 * TicksPerSecond
  const TicksPerHour: int := 60 * TicksPerMinute
  const TicksPerDay: int := 24 * TicksPerHour

  predicate IsLeapYear(year: int) {
    year % 4 == 0 && (year % 100 != 0 || year % 400 == 0)
  }

  function DaysInMonth(year: int, month: int): (days: int)
    requires 1 <= month <= 12
    ensures 28 <= days <= 31
  {
    if month == 2 then (if IsLeapYear(year) then 29 else 28)
    else if month == 4 || month == 6 || month == 9 || month == 11 then 30
    else 31
  }

  /** Days from 0001-01-01 to the first day of `year`. */
  function DaysBeforeYear(year: int): int
    requires 1 <= year
  {
    var y := year - 1;
    365 * y + y / 4 - y / 100 + y / 400
  }

  /** Days from the first of January to the first day of `month` in `year`. */
  function DaysBeforeMonth(year: int, month: int): int
    requires 1 <= month <= 12
  {
    if month == 1 then 0 else DaysBeforeMonth(year, month - 1) + DaysInMonth(year, month - 1)
  }

  predicate ValidDate(year: int, month: int, day: int) {
    1 <= year <= 9999 && 1 <= month <= 12 && 1 <= day <= DaysInMonth(year, month)
  }

  /** The tick count of a calendar date and time of day, in UTC. */
  function CivilTicks(year: int, month: int, day: int, hour: int, minute: int, second: int): int
    requires ValidDate(year, month, day)
    requires 0 <= hour < 24 && 0 <= minute < 60 && 0 <= second < 60
  {
    (DaysBeforeYear(year) + DaysBeforeMonth(year, month) + day - 1) * TicksPerDay
      + hour * TicksPerHour + minute * TicksPerMinute + second * TicksPerSecond
  }

  /** The closed form for `DaysBeforeYear` advances by the length of each year. */
  lemma YearLength(year: int)
    requires 1 <= year
    ensures DaysBeforeYear(year + 1) - DaysBeforeYear(year) == if IsLeapYear(year) then 366 else 365
  {
    var y := year - 1;
    QuotientStep(y, 4);
    QuotientStep(y, 100);
    QuotientStep(y, 400);
  }

  /** Going from `y` to `y + 1`, the quotient by `k` grows exactly when `y + 1` is a multiple of `k`. */
  lemma QuotientStep(y: nat, k: int)
    requires k == 4 || k == 100 || k == 400
    ensures (y + 1) / k - y / k == if (y + 1) % k == 0 then 1 else 0
  {
  }
}
