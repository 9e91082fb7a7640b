/** Calendar days as whole numbers, counted from 1 January 1970 (day 0).

    The controllers normalise every date they compare to local midnight before
    subtracting, and the store keeps due and irrigation dates in `date` columns, so a
    day number carries all the information they use. This module holds the day
    arithmetic the controllers repeat and JavaScript's `new Date(year, monthIndex, day)`. */
module LocalDays {
  import opened Wrappers

  type Day = int

  /** `d.setDate(d.getDate() + n)` followed by `setHours(0, 0, 0, 0)`. */
  function AddDays(d: Day, n: int): Day
  {
    d + n
  }

  /** `Math.floor((to - from) / (1000 * 60 * 60 * 24))` for two local midnights. */
  function DaysBetween(from: Day, to: Day): int
  {
    to - from
  }

  /** The proleptic Gregorian calendar: the day number of `year-month-day`. */
  function DaysFromCivil(year: int, month: int, day: int): Day
    requires 1 <= month <= 12
  {
    var y := if month <= 2 then year - 1 else year;
    var era := y / 400;
    var yoe := y - era * 400;
    var mp := (month + 9) % 12;
    var doy := (153 * mp + 2) / 5 + day - 1;
    var doe := yoe * 365 + yoe / 4 - yoe / 100 + doy;
    era * 146097 + doe - 719468
  }

  /** JavaScript dates reach 8.64e15 ms, that is 10^8 days, either side of day 0. */
  const MaxDay: int := 100_000_000

  /** `new Date(year, monthIndex, day)` at local midnight: a year from 0 to 99 means
      1900 + year; a month index outside 0..11 moves into a neighbouring year; a day past
      the end of its month runs on into the next. `None` is the Invalid Date. */
  function MakeLocalDay(year: int, monthIndex: int, day: int): (r: Option<Day>)
    ensures r.Some? ==> -MaxDay <= r.value <= MaxDay
  {
    var fullYear := if 0 <= year <= 99 then 1900 + year else year;
    var d := DaysFromCivil(fullYear + monthIndex / 12, monthIndex % 12 + 1, 1) + day - 1;
    if -MaxDay <= d <= MaxDay then Some(d) else None
  }

  lemma DaysFromCivilBounds(year: int, month: int, day: int)
    requires 0 <= year <= 9999 && 1 <= month <= 12 && 1 <= day <= 31
    ensures -800000 <= DaysFromCivil(year, month, day) <= 3000000
  {
  }

  /** For a four-digit year and a month index within the year, the JavaScript date is
      that calendar day. */
  lemma {:induction false} MakeLocalDayInYear(year: int, month: int, day: int)
    requires 100 <= year <= 9999 && 1 <= month <= 12 && 1 <= day <= 31
    ensures MakeLocalDay(year, month - 1, day) == Some(DaysFromCivil(year, month, 1) + day - 1)
  {
    assert (month - 1) / 12 == 0 && (month - 1) % 12 + 1 == month;
    DaysFromCivilBounds(year, month, 1);
  }
}
