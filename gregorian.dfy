/**
 * The proleptic Gregorian calendar on day numbers.
 *
 * A date is an `int` counted from a fixed epoch: day 1 is Monday 1 January
 * of year 1 (Rata Die numbering), and every integer is a date. Years,
 * months and days are whole numbers; month 1 is January.
 */
module Gregorian {

  /** Leap-year rule: divisible by 4, except centuries not divisible by 400. */
  predicate IsLeapYear(y: int) {
    y % 4 == 0 && (y % 100 != 0 || y % 400 == 0)
  }

  function DaysInYear(y: int): (n: int)
    ensures n == 365 || n == 366
    ensures n == 366 <==> IsLeapYear(y)
  {
    if IsLeapYear(y) then 366 else 365
  }

  /** Length of month `m` of year `y`. */
  function DaysInMonth(y: int, m: int): (n: int)
    requires 1 <= m <= 12
    ensures 28 <= n <= 31
  {
    if m == 2 then (if IsLeapYear(y) then 29 else 28)
    else if m == 4 || m == 6 || m == 9 || m == 11 then 30
    else 31
  }

  /** Days of year `y` before the first of month `m`; month 13 stands for the next year. */
  function DaysBeforeMonth(y: int, m: int): (n: int)
    requires 1 <= m <= 13
    ensures 0 <= n <= 366
  {
    [0, 31, 59, 90, 120, 151, 181, 212, 243, 273, 304, 334, 365][m - 1]
      + (if m > 2 && IsLeapYear(y) then 1 else 0)
  }

  /** Days before 1 January of year `y` (Dafny's `/` floors for a positive divisor). */
  function DaysBeforeYear(y: int): int {
    365 * (y - 1) + (y - 1) / 4 - (y - 1) / 100 + (y - 1) / 400
  }

  /**
   * The day number of (y, m, d), built leniently as a calendar does from
   * components: a month outside 1..12 moves into a neighbouring year, and a
   * day outside the month rolls over into the neighbouring months.
   */
  function Date(y: int, m: int, d: int): (n: int)
    ensures 1 <= m <= 12 ==> n == DaysBeforeYear(y) + DaysBeforeMonth(y, m) + d
    ensures m == 13 ==> n == DaysBeforeYear(y + 1) + d
    ensures m == 0 ==> n == DaysBeforeYear(y - 1) + DaysBeforeMonth(y - 1, 12) + d
  {
    var y' := y + (m - 1) / 12;
    var m' := (m - 1) % 12 + 1;
    DaysBeforeYear(y') + DaysBeforeMonth(y', m') + d
  }

  /** (y, m, d) names a real calendar date. */
  predicate IsValidDate(y: int, m: int, d: int) {
    1 <= m <= 12 && 1 <= d <= DaysInMonth(y, m)
  }

  /** Weekday as Foundation numbers it: 1 is Sunday, 2 Monday, ..., 7 Saturday. */
  function Weekday(n: int): (w: int)
    ensures 1 <= w <= 7
  {
    n % 7 + 1
  }

  datatype CivilDate = CivilDate(year: int, month: int, day: int)

  /** A day number split into year, month and day. */
  function ToCivil(n: int): (c: CivilDate)
    ensures IsValidDate(c.year, c.month, c.day)
    ensures Date(c.year, c.month, c.day) == n
  {
    var y := YearOf(n);
    var t := n - DaysBeforeYear(y) - 1;
    YearStep(y);
    var m := MonthOf(y, t, 1);
    var d := t - DaysBeforeMonth(y, m) + 1;
    MonthStep(y, m);
    DateInYear(y, m, d);
    CivilDate(y, m, d)
  }

  // ---------------------------------------------------------------------
  // Year and month search behind ToCivil

  /** The year that day `n` falls in. */
  function YearOf(n: int): (y: int)
    ensures DaysBeforeYear(y) < n <= DaysBeforeYear(y + 1)
  {
    var q := (n - 1) / 146097;
    var r := (n - 1) % 146097;
    assert DaysBeforeYear(1) == 0;
    var k := YearInCycle(r, 0);
    var y := 400 * q + k + 1;
    CycleBounds(n, q, r, k, y);
    y
  }

  /** A year found inside one 400-year cycle is found in every cycle, shifted by whole cycles. */
  lemma CycleBounds(n: int, q: int, r: int, k: int, y: int)
    requires n - 1 == 146097 * q + r && y == 400 * q + k + 1
    requires DaysBeforeYear(k + 1) <= r < DaysBeforeYear(k + 2)
    ensures DaysBeforeYear(y) < n <= DaysBeforeYear(y + 1)
  {
    CycleShift(k + 1, q);
    CycleShift(k + 2, q);
    assert k + 1 + 400 * q == y && k + 2 + 400 * q == y + 1;
  }

  /** The offset 0..399 of the year, inside a 400-year cycle, that holds day offset `r`. */
  function YearInCycle(r: int, k: int): (j: int)
    requires 0 <= k <= 399
    requires DaysBeforeYear(k + 1) <= r < 146097
    ensures k <= j <= 399
    ensures DaysBeforeYear(j + 1) <= r < DaysBeforeYear(j + 2)
    decreases 400 - k
  {
    if r < DaysBeforeYear(k + 2) then k
    else
      assert DaysBeforeYear(401) == 146097;
      YearInCycle(r, k + 1)
  }

  /** The month 1..12 of year `y` that holds day-of-year offset `t`. */
  function MonthOf(y: int, t: int, m: int): (m': int)
    requires 1 <= m <= 12
    requires DaysBeforeMonth(y, m) <= t < DaysInYear(y)
    ensures m <= m' <= 12
    ensures DaysBeforeMonth(y, m') <= t < DaysBeforeMonth(y, m' + 1)
    decreases 12 - m
  {
    if t < DaysBeforeMonth(y, m + 1) then m else MonthOf(y, t, m + 1)
  }

  // ---------------------------------------------------------------------
  // Lemmas

  /** A year is as long as the gap between its first day and the next year's. */
  lemma YearStep(y: int)
    ensures DaysBeforeYear(y + 1) == DaysBeforeYear(y) + DaysInYear(y)
  {
    FloorStep(y - 1, 4);
    FloorStep(y - 1, 100);
    FloorStep(y - 1, 400);
  }

  /** Floor division by `k` steps up by one exactly at the multiples of `k`. */
  lemma FloorStep(a: int, k: int)
    requires k == 4 || k == 100 || k == 400
    ensures (a + 1) / k == a / k + (if (a + 1) % k == 0 then 1 else 0)
  {
    if k == 4 {
      assert (a + 1) / 4 == a / 4 + (if (a + 1) % 4 == 0 then 1 else 0);
    } else if k == 100 {
      assert (a + 1) / 100 == a / 100 + (if (a + 1) % 100 == 0 then 1 else 0);
    } else {
      assert (a + 1) / 400 == a / 400 + (if (a + 1) % 400 == 0 then 1 else 0);
    }
  }

  /** The calendar repeats every 400 years, which hold 146097 days. */
  lemma CycleShift(y: int, q: int)
    ensures DaysBeforeYear(y + 400 * q) == DaysBeforeYear(y) + 146097 * q
  {
    var a := y - 1;
    assert (a + 400 * q) / 4 == a / 4 + 100 * q;
    assert (a + 400 * q) / 100 == a / 100 + 4 * q;
    assert (a + 400 * q) / 400 == a / 400 + q;
  }

  /** Later years start later: every year in between has at least 365 days. */
  lemma {:induction false} YearsIncrease(y1: int, y2: int)
    requires y1 < y2
    ensures DaysBeforeYear(y1 + 1) <= DaysBeforeYear(y2)
    decreases y2 - y1
  {
    if y1 + 1 < y2 {
      YearsIncrease(y1, y2 - 1);
      YearStep(y2 - 1);
    }
  }

  /** Each day lies in exactly one year. */
  lemma YearUnique(n: int, y: int)
    requires DaysBeforeYear(y) < n <= DaysBeforeYear(y + 1)
    ensures YearOf(n) == y
  {
    var y' := YearOf(n);
    if y' < y { YearsIncrease(y', y); }
    else if y < y' { YearsIncrease(y, y'); }
  }

  /** The two month tables agree, and the last month ends the year. */
  lemma MonthStep(y: int, m: int)
    requires 1 <= m <= 12
    ensures DaysBeforeMonth(y, m + 1) == DaysBeforeMonth(y, m) + DaysInMonth(y, m)
    ensures DaysBeforeMonth(y, 13) == DaysInYear(y)
  {
  }

  /** Later months start later. */
  lemma MonthsIncrease(y: int, m1: int, m2: int)
    requires 1 <= m1 < m2 <= 13
    ensures DaysBeforeMonth(y, m1 + 1) <= DaysBeforeMonth(y, m2)
  {
  }

  /** For a month already in 1..12 the lenient construction adds no carry. */
  lemma DateInYear(y: int, m: int, d: int)
    requires 1 <= m <= 12
    ensures Date(y, m, d) == DaysBeforeYear(y) + DaysBeforeMonth(y, m) + d
  {
    assert (m - 1) / 12 == 0 && (m - 1) % 12 + 1 == m;
  }

  /** Each day-of-year offset lies in exactly one month. */
  lemma MonthUnique(y: int, t: int, m: int)
    requires 1 <= m <= 12
    requires 0 <= t && DaysBeforeMonth(y, m) <= t < DaysBeforeMonth(y, m + 1)
    ensures MonthOf(y, t, 1) == m
  {
    MonthStep(y, m);
    MonthsIncrease(y, m, 13);
    var m' := MonthOf(y, t, 1);
    if m' < m { MonthsIncrease(y, m', m); }
    else if m < m' { MonthsIncrease(y, m, m'); }
  }

  /** The same day of a later month of the same year is a later date. */
  lemma LaterMonthIsLater(y: int, m: int, d: int)
    requires 2 <= m <= 12
    ensures Date(y, 1, d) < Date(y, m, d)
  {
    DateInYear(y, 1, d);
    DateInYear(y, m, d);
    MonthsIncrease(y, 1, m);
  }

  /** Splitting a valid date's day number gives the date back. */
  lemma ToCivilOfDate(y: int, m: int, d: int)
    requires IsValidDate(y, m, d)
    ensures ToCivil(Date(y, m, d)) == CivilDate(y, m, d)
  {
    DateInYear(y, m, d);
    ToCivilOfDays(y, m, d, Date(y, m, d));
  }

  /** The same, for the day number written as days before the year and month plus the day. */
  lemma ToCivilOfDays(y: int, m: int, d: int, n: int)
    requires IsValidDate(y, m, d)
    requires n == DaysBeforeYear(y) + DaysBeforeMonth(y, m) + d
    ensures ToCivil(n) == CivilDate(y, m, d)
  {
    MonthStep(y, m);
    MonthsIncrease(y, m, 13);
    YearStep(y);
    YearUnique(n, y);
    MonthUnique(y, n - DaysBeforeYear(y) - 1, m);
  }

  /** The day number of a valid date determines the date. */
  lemma DateInjective(y1: int, m1: int, d1: int, y2: int, m2: int, d2: int)
    requires IsValidDate(y1, m1, d1) && IsValidDate(y2, m2, d2)
    requires Date(y1, m1, d1) == Date(y2, m2, d2)
    ensures y1 == y2 && m1 == m2 && d1 == d2
  {
    ToCivilOfDate(y1, m1, d1);
    ToCivilOfDate(y2, m2, d2);
  }

  /** Consecutive days of a month have consecutive day numbers. */
  lemma NextDay(y: int, m: int, d: int)
    ensures Date(y, m, d + 1) == Date(y, m, d) + 1
  {
  }

  /** February has 29 days exactly in leap years; the named years behave as the Gregorian rule says. */
  lemma FebruaryLength(y: int)
    ensures DaysInMonth(y, 2) == 29 <==> (y % 4 == 0 && !(y % 100 == 0 && y % 400 != 0))
    ensures DaysInMonth(2000, 2) == 29 && DaysInMonth(1900, 2) == 28
    ensures DaysInMonth(2024, 2) == 29 && DaysInMonth(2023, 2) == 28
  {
  }

  /** The epoch: day 1 is 1 January of year 1. */
  lemma EpochDate()
    ensures Date(1, 1, 1) == 1
  {
    assert DaysBeforeYear(1) == 0;
    assert DaysBeforeMonth(1, 1) == 0;
  }

  /** 1 March 2024 falls on a Friday. */
  lemma March2024()
    ensures Weekday(Date(2024, 3, 1)) == 6
  {
    var n := Date(2024, 3, 1);
    assert DaysBeforeYear(2024) == 738885 by {
      assert 2023 / 4 == 505 && 2023 / 100 == 20 && 2023 / 400 == 5;
    }
    assert n == 738946;
    assert n % 7 == 5;
  }

  /** Reducing a summand modulo 7 first does not change the sum's remainder. */
  lemma ModSeven(a: int, b: int)
    ensures (a % 7 + b) % 7 == (a + b) % 7
  {
    var q := a / 7;
    assert a == 7 * q + a % 7;
    assert (a + b) == (a % 7 + b) + 7 * q;
  }

}
