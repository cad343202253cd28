/** Date helpers: the relative-time label, month names, month lengths, the
    Monday-based week range and the short date label. Time is milliseconds
    since the epoch; days are counted in UTC (time zones and daylight saving
    are not part of this model). */
module DateUtils {
  import opened Types

  const MillisPerDay := 86_400_000

  /** The day number (days since 1970-01-01) a timestamp falls on. */
  function DayOf(t: int): int {
    t / MillisPerDay
  }

  // ---------------------------------------------------------------------
  // formatDate and timeAgo
  // ---------------------------------------------------------------------

  /** What `formatDate` shows: "Today", "Yesterday" or a day-month label
      (the 'dd MMM' text itself is left to the formatting library). */
  datatype DateLabel = Today | Yesterday | DayMonth(timestamp: int)

  /** `formatDate(timestamp)` at time `now`. */
  function FormatDate(now: int, timestamp: int): (r: DateLabel)
    ensures r == Today <==> DayOf(timestamp) == DayOf(now)
    ensures r == Yesterday <==> DayOf(timestamp) == DayOf(now) - 1
    ensures r.DayMonth? ==> r.timestamp == timestamp
  {
    if DayOf(timestamp) == DayOf(now) then Today
    else if DayOf(timestamp) == DayOf(now) - 1 then Yesterday
    else DayMonth(timestamp)
  }

  /** What `timeAgo` shows. */
  datatype Ago = JustNow | MinutesAgo(minutes: int) | HoursAgo(hours: int) | DaysAgo(days: int) | Dated(date: DateLabel)

  /** `Math.floor((now - timestamp) / 1000)`; Dafny's division by a positive
      constant is the floor, also for negative (future) differences. */
  function ElapsedSeconds(now: int, timestamp: int): int {
    (now - timestamp) / 1000
  }

  /** `timeAgo(timestamp)` at time `now`. */
  function TimeAgo(now: int, timestamp: int): (r: Ago)
    ensures r == JustNow <==> ElapsedSeconds(now, timestamp) < 60
    ensures r.MinutesAgo? ==> 1 <= r.minutes < 60
                              && r.minutes * 60 <= ElapsedSeconds(now, timestamp) < (r.minutes + 1) * 60
    ensures r.HoursAgo? ==> 1 <= r.hours < 24
                            && r.hours * 3600 <= ElapsedSeconds(now, timestamp) < (r.hours + 1) * 3600
    ensures r.DaysAgo? ==> 1 <= r.days < 7
                           && r.days * 86400 <= ElapsedSeconds(now, timestamp) < (r.days + 1) * 86400
    ensures r.Dated? <==> ElapsedSeconds(now, timestamp) >= 604800
    ensures r.Dated? ==> r.date == FormatDate(now, timestamp)
  {
    var seconds := ElapsedSeconds(now, timestamp);
    if seconds < 60 then JustNow
    else if seconds < 3600 then MinutesAgo(seconds / 60)
    else if seconds < 86400 then HoursAgo(seconds / 3600)
    else if seconds < 604800 then DaysAgo(seconds / 86400)
    else Dated(FormatDate(now, timestamp))
  }

  /** Once `timeAgo` falls back to `formatDate` the moment is at least a
      week old, so the label is never "Today" or "Yesterday". */
  lemma DatedIsNeverRecent(now: int, timestamp: int)
    requires TimeAgo(now, timestamp).Dated?
    ensures TimeAgo(now, timestamp).date.DayMonth?
  {
    assert now - timestamp >= 604_800_000;
    DayOfMonotone(timestamp + 2 * MillisPerDay, now);
  }

  lemma DayOfMonotone(a: int, b: int)
    requires a <= b
    ensures DayOf(a) <= DayOf(b)
  {
  }

  // ---------------------------------------------------------------------
  // Month names and lengths
  // ---------------------------------------------------------------------

  const MonthNames: seq<string> := [
    "January", "February", "March", "April", "May", "June",
    "July", "August", "September", "October", "November", "December"
  ]

  /** `getMonthName(i)`: `months[i]`, `undefined` outside 0..11. */
  function MonthName(monthIndex: int): (r: Option<string>)
    ensures r.Some? <==> 0 <= monthIndex < 12
    ensures r.Some? ==> r.value == MonthNames[monthIndex]
  {
    if 0 <= monthIndex < |MonthNames| then Some(MonthNames[monthIndex]) else None
  }

  predicate IsLeapYear(year: int) {
    (year % 4 == 0 && year % 100 != 0) || year % 400 == 0
  }

  /** `getDaysInMonth`: day 0 of the next month is the last day of this one,
      so the result is this month's length (`month` is 0-based, as
      `getMonth()` returns it). */
  function DaysInMonth(year: int, month: int): (r: int)
    requires 0 <= month < 12
    ensures 28 <= r <= 31
    ensures r == 28 <==> month == 1 && !IsLeapYear(year)
    ensures r == 29 <==> month == 1 && IsLeapYear(year)
    ensures r == 30 <==> month in {3, 5, 8, 10}
  {
    if month == 1 then (if IsLeapYear(year) then 29 else 28)
    else if month in {3, 5, 8, 10} then 30
    else 31
  }

  /** A calendar date as `new Date()` reports it: 0-based month, 1-based day. */
  datatype CivilDate = CivilDate(year: int, month: int, day: int)

  predicate ValidDate(d: CivilDate) {
    0 <= d.month < 12 && 1 <= d.day <= DaysInMonth(d.year, d.month)
  }

  function YearDays(year: int): int {
    if IsLeapYear(year) then 366 else 365
  }

  /** Days from 1 January 1970 to 1 January of `year`; negative before 1970. */
  function DaysBeforeYear(year: int): int
    decreases if year >= 1970 then year - 1970 else 1970 - year
  {
    if year == 1970 then 0
    else if year > 1970 then DaysBeforeYear(year - 1) + YearDays(year - 1)
    else DaysBeforeYear(year + 1) - YearDays(year)
  }

  lemma DaysBeforeYearStep(year: int)
    ensures DaysBeforeYear(year + 1) == DaysBeforeYear(year) + YearDays(year)
  {
  }

  /** The day number of a calendar date: the inverse of `CivilOf`. */
  function DaysFromCivil(d: CivilDate): int
    requires 0 <= d.month < 12
  {
    DaysBeforeYear(d.year) + SumMonths(d.year, d.month) + d.day - 1
  }

  /** Moves `rem` days from the start of `year` into the year they fall
      in, returning that year and the day's 0-based index in it. */
  function YearAndOffset(year: int, rem: int): (r: (int, int))
    ensures 0 <= r.1 < YearDays(r.0)
    ensures DaysBeforeYear(r.0) + r.1 == DaysBeforeYear(year) + rem
    decreases if rem < 0 then 1 else 0, if rem < 0 then -rem else rem
  {
    if rem < 0 then
      DaysBeforeYearStep(year - 1);
      YearAndOffset(year - 1, rem + YearDays(year - 1))
    else if rem >= YearDays(year) then
      DaysBeforeYearStep(year);
      YearAndOffset(year + 1, rem - YearDays(year))
    else (year, rem)
  }

  /** The month and day of the `rem`-th day counted from the start of month
      `m` of `year`. */
  function MonthAndDay(year: int, m: int, rem: int): (d: CivilDate)
    requires 0 <= m < 12 && 0 <= rem < SumMonths(year, 12) - SumMonths(year, m)
    ensures ValidDate(d) && d.year == year && m <= d.month
    ensures SumMonths(year, d.month) + d.day - 1 == SumMonths(year, m) + rem
    decreases 12 - m
  {
    if rem < DaysInMonth(year, m) then CivilDate(year, m, rem + 1)
    else
      MonthAndDay(year, m + 1, rem - DaysInMonth(year, m))
  }

  /** The calendar date (in UTC) a timestamp falls on. */
  function CivilOf(t: int): (d: CivilDate)
    ensures ValidDate(d)
    ensures DaysFromCivil(d) == DayOf(t)
  {
    var yo := YearAndOffset(1970, DayOf(t));
    YearLength(yo.0);
    MonthAndDay(yo.0, 0, yo.1)
  }

  /** `getDayOfMonth`: `new Date().getDate()`. */
  function DayOfMonth(now: int): (r: int)
    ensures 1 <= r <= DaysInMonth(CivilOf(now).year, CivilOf(now).month)
  {
    CivilOf(now).day
  }

  /** `getDaysInMonth`: the length of the current month. */
  function DaysInCurrentMonth(now: int): (r: int)
    ensures 28 <= r <= 31
    ensures DayOfMonth(now) <= r
  {
    DaysInMonth(CivilOf(now).year, CivilOf(now).month)
  }

  /** 1 January 1970 is day 0. */
  lemma EpochIsFirstOfJanuary()
    ensures CivilOf(0) == CivilDate(1970, 0, 1)
  {
    assert YearAndOffset(1970, 0) == (1970, 0);
  }

  /** `getMonthRange(date)`: from the first millisecond of the first day of
      the date's month to the last millisecond of its last day. */
  function MonthRange(t: int): (r: Range)
    ensures r.start <= t <= r.end
    ensures r.start % MillisPerDay == 0
    ensures r.end - r.start == DaysInCurrentMonth(t) * MillisPerDay - 1
    ensures DayOf(r.start) == DayOf(t) - (DayOfMonth(t) - 1)
  {
    var first := DayOf(t) - (DayOfMonth(t) - 1);
    Range(first * MillisPerDay, (first + DaysInCurrentMonth(t)) * MillisPerDay - 1)
  }

  /** The year has 365 days, 366 in a leap year. */
  lemma {:induction false} YearLength(year: int)
    ensures SumMonths(year, 12) == if IsLeapYear(year) then 366 else 365
  {
    assert SumMonths(year, 12) == SumMonths(year, 11) + 31;
    assert SumMonths(year, 11) == SumMonths(year, 10) + 30;
    assert SumMonths(year, 10) == SumMonths(year, 9) + 31;
    assert SumMonths(year, 9) == SumMonths(year, 8) + 30;
    assert SumMonths(year, 8) == SumMonths(year, 7) + 31;
    assert SumMonths(year, 7) == SumMonths(year, 6) + 31;
    assert SumMonths(year, 6) == SumMonths(year, 5) + 30;
    assert SumMonths(year, 5) == SumMonths(year, 4) + 31;
    assert SumMonths(year, 4) == SumMonths(year, 3) + 30;
    assert SumMonths(year, 3) == SumMonths(year, 2) + 31;
    assert SumMonths(year, 2) == SumMonths(year, 1) + DaysInMonth(year, 1);
    assert SumMonths(year, 1) == 31;
  }

  /** The days in the first `n` months of `year`. */
  function SumMonths(year: int, n: int): int
    requires 0 <= n <= 12
  {
    if n == 0 then 0 else SumMonths(year, n - 1) + DaysInMonth(year, n - 1)
  }

  // ---------------------------------------------------------------------
  // Ranges
  // ---------------------------------------------------------------------

  /** A closed range of timestamps, as `getMonthRange`/`getWeekRange` return. */
  datatype Range = Range(start: int, end: int)

  /** 0 = Sunday … 6 = Saturday; 1970-01-01 was a Thursday. */
  function Weekday(day: int): (w: int)
    ensures 0 <= w < 7
  {
    (day + 4) % 7
  }

  /** `getWeekRange(date)` with `weekStartsOn: 1`: from the start of the
      Monday on or before the date to the last millisecond of the Sunday
      after it. */
  function WeekRange(t: int): (r: Range)
    ensures r.start <= t <= r.end
    ensures r.end - r.start == 7 * MillisPerDay - 1
    ensures r.start % MillisPerDay == 0 && Weekday(r.start / MillisPerDay) == 1
  {
    var day := DayOf(t);
    var monday := day - (Weekday(day) + 6) % 7;
    assert Weekday(monday) == 1;
    Range(monday * MillisPerDay, (monday + 7) * MillisPerDay - 1)
  }
}
