/**
 * The week key the accumulator partitions its files by: `strftime("%Y_W%V")`
 * of the current date, i.e. the calendar year next to the two-digit ISO
 * 8601 week number (section 4.1.4 of ISO 8601:2004, as computed by
 * Python's `date.isocalendar`).
 */
module IsoWeek {
  import opened Text

  /** A proleptic Gregorian calendar date. */
  datatype Date = Date(year: int, month: int, day: int)

  predicate IsLeap(y: int) {
    y % 4 == 0 && (y % 100 != 0 || y % 400 == 0)
  }

  function DaysInMonth(y: int, m: int): int
    requires 1 <= m <= 12
  {
    if m == 2 then (if IsLeap(y) then 29 else 28)
    else if m == 4 || m == 6 || m == 9 || m == 11 then 30
    else 31
  }

  predicate ValidDate(d: Date) {
    1 <= d.year <= 9999 && 1 <= d.month <= 12 && 1 <= d.day <= DaysInMonth(d.year, d.month)
  }

  /** Days in the months of year `y` before month `m`. */
  function DaysBeforeMonth(y: int, m: int): (r: int)
    requires 1 <= m <= 13
    ensures m == 13 ==> r == YearDays(y)
    decreases m
  {
    if m == 1 then 0 else DaysBeforeMonth(y, m - 1) + DaysInMonth(y, m - 1)
  }

  /** Days before January 1st of year `y`, counting from 0001-01-01: the lengths of the years before it. */
  function DaysBeforeYear(y: int): int
    requires y >= 1
    decreases y
  {
    if y == 1 then 0 else DaysBeforeYear(y - 1) + YearDays(y - 1)
  }

  /** The closed form `_days_before_year` computes. */
  function LeapDaysBeforeYear(y: int): int
    requires y >= 1
  {
    var p := y - 1;
    p * 365 + p / 4 - p / 100 + p / 400
  }

  /** `a / k` and `a % k` are the quotient and remainder of any division of `a` by `k`. */
  lemma DivUnique(a: int, k: int, q: int, r: int)
    requires k > 0 && a == q * k + r && 0 <= r < k
    ensures a / k == q && a % k == r
  {
    var d := a / k - q;
    assert d * k == r - a % k;
  }

  /** The quotient by `k` steps up exactly at the multiples of `k`. */
  lemma DivStep(y: int, k: int)
    requires k > 0
    ensures y / k - (y - 1) / k == if y % k == 0 then 1 else 0
  {
    var q, r := (y - 1) / k, (y - 1) % k;
    if r == k - 1 {
      DivUnique(y, k, q + 1, 0);
    } else {
      DivUnique(y, k, q, r + 1);
    }
  }

  /** The number of days in year `y`. */
  function YearDays(y: int): int {
    if IsLeap(y) then 366 else 365
  }

  /** In the closed form too, year `y + 1` starts as many days after year `y` as `y` has. */
  lemma LeapYearLength(y: int)
    requires y >= 1
    ensures LeapDaysBeforeYear(y + 1) - LeapDaysBeforeYear(y) == YearDays(y)
  {
    DivStep(y, 4);
    DivStep(y, 100);
    DivStep(y, 400);
    if y % 400 == 0 {
      DivUnique(y, 100, 4 * (y / 400), 0);
    }
    if y % 100 == 0 {
      DivUnique(y, 4, 25 * (y / 100), 0);
    }
    assert LeapDaysBeforeYear(y + 1) - LeapDaysBeforeYear(y)
      == 365 + (y / 4 - (y - 1) / 4) - (y / 100 - (y - 1) / 100) + (y / 400 - (y - 1) / 400);
  }

  /** The year-by-year count is the closed form `_days_before_year` uses. */
  lemma {:induction false} DaysBeforeYearClosed(y: int)
    requires y >= 1
    ensures DaysBeforeYear(y) == LeapDaysBeforeYear(y)
    decreases y
  {
    if y > 1 {
      DaysBeforeYearClosed(y - 1);
      LeapYearLength(y - 1);
    }
  }

  /** `date.toordinal()`: 0001-01-01 is day 1. */
  function Ordinal(d: Date): (r: int)
    requires ValidDate(d)
    ensures DaysBeforeYear(d.year) < r <= DaysBeforeYear(d.year) + YearDays(d.year)
  {
    assert DaysBeforeMonth(d.year, d.month) + DaysInMonth(d.year, d.month) == DaysBeforeMonth(d.year, d.month + 1);
    DaysMonotone(d.year, d.month + 1, 13);
    DaysBeforeYear(d.year) + DaysBeforeMonth(d.year, d.month) + d.day
  }

  lemma {:induction false} DaysMonotone(y: int, m: int, n: int)
    requires 1 <= m <= n <= 13
    ensures DaysBeforeMonth(y, m) <= DaysBeforeMonth(y, n)
    decreases n - m
  {
    if m < n {
      DaysMonotone(y, m, n - 1);
    }
  }

  /** The weekday of a day number, Monday being 0 (`date.weekday()`). */
  function Weekday(ordinal: int): (r: int)
    ensures 0 <= r < 7
  {
    (ordinal + 6) % 7
  }

  /**
   * The Monday of week 1 of the year whose January 1st is day `first`: the
   * week holding the year's first Thursday.
   */
  function MondayOfWeek1(first: int): (r: int)
    ensures Weekday(r) == 0
    ensures first - 3 <= r <= first + 3
  {
    var wd := Weekday(first);
    if wd > 3 then first - wd + 7 else first - wd
  }

  /** The week-1 Mondays of consecutive years are 52 or 53 weeks apart. */
  lemma Week1Gap(f1: int, f2: int)
    requires f2 - f1 == 365 || f2 - f1 == 366
    ensures MondayOfWeek1(f2) - MondayOfWeek1(f1) == 364 || MondayOfWeek1(f2) - MondayOfWeek1(f1) == 371
  {
    var a, b := MondayOfWeek1(f1), MondayOfWeek1(f2);
    assert (b - a) % 7 == 0;
  }

  /** The day number of the Monday of ISO week 1 of year `y`. */
  function Week1Monday(y: int): int
    requires y >= 1
  {
    MondayOfWeek1(DaysBeforeYear(y) + 1)
  }

  /** The ISO year, week (1 to 53) and weekday (1 to 7) of a date. */
  datatype IsoDate = IsoDate(year: int, week: int, weekday: int)

  /** Two week-1 Mondays of consecutive years: 52 or 53 weeks apart. */
  predicate ConsecutiveMondays(a: int, b: int) {
    b - a == 364 || b - a == 371
  }

  /** The week-1 Mondays around year `y` and where its days lie relative to them. */
  lemma YearFrame(y: int)
    requires 1 <= y <= 9999
    ensures ConsecutiveMondays(Week1Monday(y), Week1Monday(y + 1))
    ensures ConsecutiveMondays(Week1Monday(y + 1), Week1Monday(y + 2))
    ensures y > 1 ==> ConsecutiveMondays(Week1Monday(y - 1), Week1Monday(y))
    ensures Week1Monday(y) - 3 <= DaysBeforeYear(y) + 1
    ensures DaysBeforeYear(y) + YearDays(y) <= Week1Monday(y + 1) + 2
    ensures y == 1 ==> Week1Monday(y) == 1
  {
    MondaysOfConsecutiveYears(y);
    MondaysOfConsecutiveYears(y + 1);
    if y > 1 {
      MondaysOfConsecutiveYears(y - 1);
    }
  }

  lemma MondaysOfConsecutiveYears(y: int)
    requires y >= 1
    ensures ConsecutiveMondays(Week1Monday(y), Week1Monday(y + 1))
  {
    Week1Gap(DaysBeforeYear(y) + 1, DaysBeforeYear(y + 1) + 1);
  }

  /** Seven days on from a Monday the weekday repeats. */
  lemma WeekdayAfter(monday: int, weeks: int, wd: int)
    requires Weekday(monday) == 0 && 0 <= wd < 7
    ensures Weekday(monday + 7 * weeks + wd) == wd
  {
    var q := (monday + 6) / 7;
    DivUnique(monday + 7 * weeks + wd + 6, 7, q + weeks, wd);
  }

  /**
   * The body of `date.isocalendar()` for day `today` of calendar year `y`,
   * given the week-1 Mondays of years `y - 1` to `y + 2`: the day lies in the
   * ISO year whose week-1 Monday is the last one not after it, `week - 1`
   * weeks and `weekday - 1` days past that Monday.
   */
  function IsoFromMondays(y: int, today: int, previous: int, monday: int, next: int, after: int): (r: IsoDate)
    requires Weekday(monday) == 0
    requires ConsecutiveMondays(previous, monday) && ConsecutiveMondays(monday, next)
    requires ConsecutiveMondays(next, after)
    requires monday - 3 <= today <= next + 2
    ensures 1 <= r.week <= 53 && 1 <= r.weekday <= 7
    ensures r.year == y - 1 || r.year == y || r.year == y + 1
    ensures r.year == y - 1 ==> previous <= today < monday && today == previous + 7 * (r.week - 1) + r.weekday - 1
    ensures r.year == y ==> monday <= today < next && today == monday + 7 * (r.week - 1) + r.weekday - 1
    ensures r.year == y + 1 ==> next <= today < after && today == next + 7 * (r.week - 1) + r.weekday - 1
    ensures Weekday(today) == r.weekday - 1
  {
    var week := (today - monday) / 7;
    var wd := (today - monday) % 7;
    WeekdayAfter(monday, week, wd);
    if week < 0 then
      DivUnique(today - previous, 7, week + (monday - previous) / 7, wd);
      IsoDate(y - 1, (today - previous) / 7 + 1, wd + 1)
    else if week >= 52 && today >= next then
      IsoDate(y + 1, 1, wd + 1)
    else
      IsoDate(y, week + 1, wd + 1)
  }

  /**
   * `date.isocalendar()`: the date lies in the ISO year that runs from that
   * year's week-1 Monday up to the next year's, `week - 1` whole weeks and
   * `weekday - 1` days after the Monday, on the weekday `weekday` names.
   */
  function IsoCalendar(d: Date): (r: IsoDate)
    requires ValidDate(d)
    ensures 1 <= r.week <= 53 && 1 <= r.weekday <= 7
    ensures r.year == d.year - 1 || r.year == d.year || r.year == d.year + 1
    ensures r.year == d.year - 1 ==>
      (d.year > 1 && Week1Monday(d.year - 1) <= Ordinal(d) < Week1Monday(d.year)
       && Ordinal(d) == Week1Monday(d.year - 1) + 7 * (r.week - 1) + (r.weekday - 1))
    ensures r.year == d.year ==>
      (Week1Monday(d.year) <= Ordinal(d) < Week1Monday(d.year + 1)
       && Ordinal(d) == Week1Monday(d.year) + 7 * (r.week - 1) + (r.weekday - 1))
    ensures r.year == d.year + 1 ==>
      (Week1Monday(d.year + 1) <= Ordinal(d) < Week1Monday(d.year + 2)
       && Ordinal(d) == Week1Monday(d.year + 1) + 7 * (r.week - 1) + (r.weekday - 1))
    ensures Weekday(Ordinal(d)) == r.weekday - 1
  {
    var y := d.year;
    YearFrame(y);
    var monday := Week1Monday(y);
    var previous := if y > 1 then Week1Monday(y - 1) else monday - 364;
    var next, after := Week1Monday(y + 1), Week1Monday(y + 2);
    IsoFromMondays(y, Ordinal(d), previous, monday, next, after)
  }

  /**
   * `strftime("%Y_W%V")`: the calendar year (not the ISO year) and the
   * zero-padded ISO week.
   */
  function WeekKey(d: Date): (r: string)
    requires ValidDate(d)
    ensures |r| >= 5 && r[|r| - 4..|r| - 2] == "_W"
    ensures r == NatToString(d.year) + "_W" + Pad2(IsoCalendar(d).week)
  {
    var w := IsoCalendar(d).week;
    NatToString(d.year) + "_W" + Pad2(w)
  }

  /** The day numbers the examples below rest on. */
  lemma Anchors2024()
    ensures DaysBeforeYear(2024) == 738885 && DaysBeforeYear(2025) == 739251
    ensures Week1Monday(2024) == 738886 && Week1Monday(2025) == 739250
    ensures NatToString(2024) == "2024" && NatToString(2025) == "2025"
  {
    DaysBeforeYearClosed(2024);
    assert DaysBeforeYear(2025) == DaysBeforeYear(2024) + 366;
  }

  /** A mid-year date: 1 July 2025 lies in ISO week 27. */
  lemma WeekKeyMidYear()
    ensures WeekKey(Date(2025, 7, 1)) == "2025_W27"
  {
    Anchors2024();
    assert Ordinal(Date(2025, 7, 1)) == 739433;
    assert IsoCalendar(Date(2025, 7, 1)).week == 27;
  }

  /**
   * The calendar year is paired with the ISO week: 30 December 2024 is in
   * ISO week 1 of 2025, so its key is "2024_W01" ...
   */
  lemma WeekKeyYearEnd()
    ensures IsoCalendar(Date(2024, 12, 30)).year == 2025
    ensures WeekKey(Date(2024, 12, 30)) == "2024_W01"
  {
    Anchors2024();
    assert Ordinal(Date(2024, 12, 30)) == 739250;
  }

  /** ... the same key as 1 January 2024, which opens ISO week 1 of 2024. */
  lemma WeekKeyNewYear()
    ensures IsoCalendar(Date(2024, 1, 1)) == IsoDate(2024, 1, 1)
    ensures WeekKey(Date(2024, 1, 1)) == "2024_W01"
  {
    Anchors2024();
    assert Ordinal(Date(2024, 1, 1)) == 738886;
  }
}
