/** Calendar days in the proleptic Gregorian calendar, standing in for the
    JavaScript `Date` values the analytics engine builds from "now". A day is
    a (year, month, day) triple; `DayNumber` counts days from 0001-01-01 and
    plays the part of a timestamp in every comparison. */
module Calendar {
  import opened Text

  datatype Date = Date(year: int, month: int, day: int)

  predicate IsLeapYear(y: int)
  {
    (y % 4 == 0 && y % 100 != 0) || y % 400 == 0
  }

  /** `new Date(y, m, 0).getDate()` for the 1-based month `m`. */
  function DaysInMonth(y: int, m: int): (n: int)
    requires 1 <= m <= 12
    ensures 28 <= n <= 31
    ensures n == 29 <==> m == 2 && IsLeapYear(y)
  {
    if m == 2 then (if IsLeapYear(y) then 29 else 28)
    else if m == 4 || m == 6 || m == 9 || m == 11 then 30
    else 31
  }

  /** A real calendar day, as every `Date` the engine builds is. */
  predicate Valid(d: Date)
  {
    1 <= d.month <= 12 && 1 <= d.day <= DaysInMonth(d.year, d.month)
  }

  /** Days from 0001-01-01 to January 1 of `y`. */
  function DaysBeforeYear(y: int): int
  {
    var x := y - 1;
    365 * x + x / 4 - x / 100 + x / 400
  }

  /** Days from January 1 to the first day of month `m` of year `y`. */
  function DaysBeforeMonth(y: int, m: int): (n: int)
    requires 1 <= m <= 12
    ensures 0 <= n <= 335
  {
    var table := [0, 31, 59, 90, 120, 151, 181, 212, 243, 273, 304, 334];
    table[m - 1] + (if m > 2 && IsLeapYear(y) then 1 else 0)
  }

  /** The day's position on the time line: 0001-01-01 is day 0. */
  function DayNumber(d: Date): int
    requires Valid(d)
  {
    DaysBeforeYear(d.year) + DaysBeforeMonth(d.year, d.month) + d.day - 1
  }

  /** `getDay()`: 0 for Sunday through 6 for Saturday (0001-01-01 was a Monday). */
  function Weekday(d: Date): (w: int)
    requires Valid(d)
    ensures 0 <= w < 7
  {
    (DayNumber(d) + 1) % 7
  }

  /** The day before `d` (`new Date(y, m, day - 1)`). */
  function PrevDay(d: Date): (p: Date)
    requires Valid(d)
    ensures Valid(p)
  {
    if d.day > 1 then Date(d.year, d.month, d.day - 1)
    else if d.month > 1 then Date(d.year, d.month - 1, DaysInMonth(d.year, d.month - 1))
    else Date(d.year - 1, 12, 31)
  }

  /** Stepping a floor quotient: `(x + 1) / k` passes `x / k` by one exactly
      when `k` divides `x + 1`. */
  lemma QuotientStep(x: int, k: int)
    requires k == 4 || k == 100 || k == 400
    ensures (x + 1) / k - x / k == if (x + 1) % k == 0 then 1 else 0
  {
    var q, r := x / k, x % k;
    var q', r' := (x + 1) / k, (x + 1) % k;
    assert x == k * q + r && 0 <= r < k;
    assert x + 1 == k * q' + r' && 0 <= r' < k;
    if r == k - 1 {
      assert k * q' + r' == k * (q + 1);
      assert k * (q' - q - 1) == -r';
      assert r' == 0 && q' == q + 1;
    } else {
      assert k * q' + r' == k * q + (r + 1);
      assert k * (q' - q) == r + 1 - r';
      assert q' == q;
    }
  }

  /** A year has 365 days, or 366 when it is a leap year. */
  lemma YearLength(y: int)
    ensures DaysBeforeYear(y + 1) - DaysBeforeYear(y) == if IsLeapYear(y) then 366 else 365
  {
    var x := y - 1;
    QuotientStep(x, 4);
    QuotientStep(x, 100);
    QuotientStep(x, 400);
    assert y % 400 == 0 ==> y % 100 == 0;
    assert y % 100 == 0 ==> y % 4 == 0;
  }

  /** `PrevDay` is exactly one day earlier on the time line. */
  lemma PrevDayNumber(d: Date)
    requires Valid(d)
    ensures DayNumber(PrevDay(d)) == DayNumber(d) - 1
  {
    if d.day == 1 && d.month == 1 {
      YearLength(d.year - 1);
    }
  }

  /** The day `i` days before `d` (`new Date(y, m, day - i)`). */
  function DaysAgo(d: Date, i: nat): (r: Date)
    requires Valid(d)
    ensures Valid(r)
  {
    if i == 0 then d else PrevDay(DaysAgo(d, i - 1))
  }

  /** Going back `i + 1` days is going back one day and then `i` more. */
  lemma {:induction false} DaysAgoShift(d: Date, i: nat)
    requires Valid(d)
    ensures DaysAgo(PrevDay(d), i) == DaysAgo(d, i + 1)
  {
    if i > 0 {
      DaysAgoShift(d, i - 1);
    }
  }

  lemma {:induction false} DaysAgoNumber(d: Date, i: nat)
    requires Valid(d)
    ensures DayNumber(DaysAgo(d, i)) == DayNumber(d) - i
    decreases i
  {
    if i > 0 {
      DaysAgoShift(d, i - 1);
      DaysAgoNumber(PrevDay(d), i - 1);
      PrevDayNumber(d);
    }
  }

  /** The day after `d`. */
  function NextDay(d: Date): (n: Date)
    requires Valid(d)
    ensures Valid(n)
  {
    if d.day < DaysInMonth(d.year, d.month) then Date(d.year, d.month, d.day + 1)
    else if d.month < 12 then Date(d.year, d.month + 1, 1)
    else Date(d.year + 1, 1, 1)
  }

  /** `NextDay` is exactly one day later on the time line. */
  lemma NextDayNumber(d: Date)
    requires Valid(d)
    ensures DayNumber(NextDay(d)) == DayNumber(d) + 1
  {
    if d.day == DaysInMonth(d.year, d.month) && d.month == 12 {
      YearLength(d.year);
    }
  }

  /** The day `i` days after `d`. */
  function DaysLater(d: Date, i: nat): (r: Date)
    requires Valid(d)
    ensures Valid(r)
  {
    if i == 0 then d else NextDay(DaysLater(d, i - 1))
  }

  lemma {:induction false} DaysLaterNumber(d: Date, i: nat)
    requires Valid(d)
    ensures DayNumber(DaysLater(d, i)) == DayNumber(d) + i
  {
    if i > 0 {
      DaysLaterNumber(d, i - 1);
      DaysLaterStep(d, i);
    }
  }

  lemma DaysLaterStep(d: Date, i: nat)
    requires Valid(d) && i > 0
    ensures DayNumber(DaysLater(d, i)) == DayNumber(DaysLater(d, i - 1)) + 1
  {
    NextDayNumber(DaysLater(d, i - 1));
  }

  /** Inside one month, counting days on from the first is counting the day
      of the month. */
  lemma {:induction false} DaysLaterInMonth(year: int, month: int, i: nat)
    requires 1 <= month <= 12 && i < DaysInMonth(year, month)
    ensures DaysLater(Date(year, month, 1), i) == Date(year, month, 1 + i)
  {
    if i > 0 {
      DaysLaterInMonth(year, month, i - 1);
    }
  }

  /** The position of a (year, 1-based month) pair on the month line. */
  function MonthIndex(year: int, month: int): int
  {
    year * 12 + month - 1
  }

  /** The (year, month) of `new Date(year, month - 1 - i, 1)`: `i` months back,
      with JavaScript's carry into the year. */
  function MonthsAgo(year: int, month: int, i: int): (r: (int, int))
    ensures 1 <= r.1 <= 12
    ensures MonthIndex(r.0, r.1) == MonthIndex(year, month) - i
  {
    var total := MonthIndex(year, month) - i;
    (total / 12, total % 12 + 1)
  }

  /** `new Date(year, monthIndex, day)` in local time: a year from 0 to 99
      means 1900 plus it, a month index outside 0..11 carries into the year,
      and a day outside the month counts on from (or back before) its first
      day, so day 0 is the last day of the month before. */
  function NewDate(year: int, monthIndex: int, day: int): (r: Date)
    ensures Valid(r)
  {
    var y := if 0 <= year <= 99 then 1900 + year else year;
    var ym := MonthsAgo(y, monthIndex + 1, 0);
    var first := Date(ym.0, ym.1, 1);
    if day >= 1 then DaysLater(first, day - 1) else DaysAgo(first, 1 - day)
  }

  /** The day `NewDate` builds lies `day - 1` days from the first of the
      carried month. */
  lemma NewDateNumber(year: int, monthIndex: int, day: int)
    ensures var y := if 0 <= year <= 99 then 1900 + year else year;
      var ym := MonthsAgo(y, monthIndex + 1, 0);
      DayNumber(NewDate(year, monthIndex, day)) == DayNumber(Date(ym.0, ym.1, 1)) + day - 1
  {
    var y := if 0 <= year <= 99 then 1900 + year else year;
    var ym := MonthsAgo(y, monthIndex + 1, 0);
    var first := Date(ym.0, ym.1, 1);
    if day >= 1 {
      DaysLaterNumber(first, day - 1);
    } else {
      DaysAgoNumber(first, 1 - day);
    }
  }

  /** A real calendar day of a year past 99 is built as itself. */
  lemma NewDateOfValid(d: Date)
    requires Valid(d) && !(0 <= d.year <= 99)
    ensures NewDate(d.year, d.month - 1, d.day) == d
  {
    var ym := MonthsAgo(d.year, d.month, 0);
    MonthIndexInjective(ym.0, ym.1, d.year, d.month);
    DaysLaterInMonth(d.year, d.month, d.day - 1);
  }

  /** Distinct (year, month) pairs sit at distinct places on the month line. */
  lemma MonthIndexInjective(y1: int, m1: int, y2: int, m2: int)
    requires 1 <= m1 <= 12 && 1 <= m2 <= 12
    requires MonthIndex(y1, m1) == MonthIndex(y2, m2)
    ensures y1 == y2 && m1 == m2
  {
    assert 12 * (y1 - y2) == m2 - m1;
  }

  /** The month key `YYYY-MM`: the year as printed by JavaScript, the 1-based
      month padded to two digits. */
  function MonthKey(year: int, month: nat): (r: string)
  {
    IntToString(year) + "-" + PadStart(NatToString(month), 2, '0')
  }

  /** `date.toISOString().split('T')[0]` for a day of the years 0 to 9999:
      `YYYY-MM-DD` with every part zero padded. */
  function FormatDate(d: Date): string
  {
    var y := if d.year >= 0 then PadStart(NatToString(d.year), 4, '0') else IntToString(d.year);
    var m := if d.month >= 0 then NatToString(d.month) else IntToString(d.month);
    var day := if d.day >= 0 then NatToString(d.day) else IntToString(d.day);
    y + "-" + PadStart(m, 2, '0') + "-" + PadStart(day, 2, '0')
  }
}
