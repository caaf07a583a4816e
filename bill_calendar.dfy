/**
 * The month grid of the bills screen (Bill/billView.swift): blank cells up
 * to the weekday of the 1st, then one cell per day, each showing the first
 * bill of `monthlyBills` that falls on it. The locale's first weekday is a
 * parameter (1 = Sunday .. 7 = Saturday).
 */
module BillCalendar {
  import opened Wrappers
  import opened Gregorian
  import opened BillModel

  /** The year picker's choices, 2023 through 2033. */
  const Years: seq<int> := [2023, 2024, 2025, 2026, 2027, 2028, 2029, 2030, 2031, 2032, 2033]

  /** The grid column of the 1st: its weekday counted from the locale's first weekday. */
  function AdjustedOffset(firstDayOfMonth: int, firstWeekday: int): (r: int)
    requires 1 <= firstDayOfMonth <= 7 && 1 <= firstWeekday <= 7
    ensures 0 <= r <= 6
    ensures r == (firstDayOfMonth - firstWeekday) % 7
  {
    var offset := firstDayOfMonth - firstWeekday;
    if offset < 0 then 7 + offset else offset
  }

  /** The leading blank cells of the grid for month `m` of year `y`. */
  function GridOffset(y: int, m: int, firstWeekday: int): (r: int)
    requires 1 <= m <= 12 && 1 <= firstWeekday <= 7
    ensures 0 <= r <= 6
  {
    AdjustedOffset(Weekday(Date(y, m, 1)), firstWeekday)
  }

  /** The bill `b` falls on `day` of the selected month and year. */
  predicate FallsOn(b: Bill, day: int, monthName: string, year: int) {
    b.day == day && b.month == monthName && b.year == year
  }

  /** The position of the first bill falling on `day`, or `|bills|` when there is none. */
  function FirstFalling(bills: seq<Bill>, day: int, monthName: string, year: int): (i: nat)
    ensures i <= |bills|
    ensures i < |bills| ==> FallsOn(bills[i], day, monthName, year)
    ensures forall j :: 0 <= j < i ==> !FallsOn(bills[j], day, monthName, year)
    decreases |bills|
  {
    if bills == [] then 0
    else if FallsOn(bills[0], day, monthName, year) then 0
    else 1 + FirstFalling(bills[1..], day, monthName, year)
  }

  /** `getBillForDay`: the first bill of `bills` falling on `day`, or none. */
  function BillForDay(bills: seq<Bill>, day: int, monthName: string, year: int): (r: Option<Bill>)
    ensures r.None? <==> forall i :: 0 <= i < |bills| ==> !FallsOn(bills[i], day, monthName, year)
    ensures r.Some? ==> exists i :: (0 <= i < |bills| && bills[i] == r.value
      && FallsOn(bills[i], day, monthName, year)
      && forall j :: 0 <= j < i ==> !FallsOn(bills[j], day, monthName, year))
  {
    var i := FirstFalling(bills, day, monthName, year);
    if i < |bills| then Some(bills[i]) else None
  }

  datatype Cell = Blank | DayCell(day: int, bill: Option<Bill>)

  /**
   * The grid for the month picked by `monthIndex` (0 = January) in the year
   * picked by `yearIndex`, over the bills of the current month collection.
   */
  function MonthGrid(bills: seq<Bill>, monthIndex: int, yearIndex: int, firstWeekday: int): (cells: seq<Cell>)
    requires 0 <= monthIndex < 12 && 0 <= yearIndex < |Years| && 1 <= firstWeekday <= 7
    ensures |cells| == DaysInMonth(Years[yearIndex], monthIndex + 1)
      + GridOffset(Years[yearIndex], monthIndex + 1, firstWeekday)
    ensures var off := GridOffset(Years[yearIndex], monthIndex + 1, firstWeekday);
      forall i :: 0 <= i < |cells| ==> (cells[i] == Blank <==> i < off)
  {
    var y, m := Years[yearIndex], monthIndex + 1;
    var off := GridOffset(y, m, firstWeekday);
    var total := DaysInMonth(y, m) + off;
    seq(total, index requires 0 <= index < total =>
      if index >= off then
        var day := index - off + 1;
        DayCell(day, BillForDay(bills, day, Months[monthIndex], y))
      else Blank)
  }

  /** Day `d` of the month sits at cell `d - 1 + offset` and shows that day's first bill. */
  lemma DayCellAt(bills: seq<Bill>, monthIndex: int, yearIndex: int, firstWeekday: int, d: int)
    requires 0 <= monthIndex < 12 && 0 <= yearIndex < |Years| && 1 <= firstWeekday <= 7
    requires 1 <= d <= DaysInMonth(Years[yearIndex], monthIndex + 1)
    ensures var cells := MonthGrid(bills, monthIndex, yearIndex, firstWeekday);
      var off := GridOffset(Years[yearIndex], monthIndex + 1, firstWeekday);
      cells[d - 1 + off] == DayCell(d, BillForDay(bills, d, Months[monthIndex], Years[yearIndex]))
  {
  }

  /** The day cells carry 1..daysInMonth in increasing order, so each day appears exactly once. */
  lemma {:induction false} GridDaysIncrease(bills: seq<Bill>, monthIndex: int, yearIndex: int, firstWeekday: int)
    requires 0 <= monthIndex < 12 && 0 <= yearIndex < |Years| && 1 <= firstWeekday <= 7
    ensures var cells := MonthGrid(bills, monthIndex, yearIndex, firstWeekday);
      forall i, j :: 0 <= i < j < |cells| && cells[i].DayCell? && cells[j].DayCell? ==> cells[i].day < cells[j].day
    ensures var cells := MonthGrid(bills, monthIndex, yearIndex, firstWeekday);
      forall i :: 0 <= i < |cells| && cells[i].DayCell? ==>
        1 <= cells[i].day <= DaysInMonth(Years[yearIndex], monthIndex + 1)
    ensures var cells := MonthGrid(bills, monthIndex, yearIndex, firstWeekday);
      var off := GridOffset(Years[yearIndex], monthIndex + 1, firstWeekday);
      forall i :: off <= i < |cells| ==> cells[i].DayCell? && cells[i].day == i - off + 1
  {
  }

  /** The column of day `d`, counted from the locale's first weekday, is d's weekday. */
  lemma ColumnIsWeekday(y: int, m: int, firstWeekday: int, d: int)
    requires 1 <= m <= 12 && 1 <= firstWeekday <= 7
    requires 1 <= d <= DaysInMonth(y, m)
    ensures (d - 1 + GridOffset(y, m, firstWeekday)) % 7 == (Weekday(Date(y, m, d)) - firstWeekday) % 7
  {
    var n := Date(y, m, 1);
    assert Date(y, m, d) == n + (d - 1);
    var w1 := Weekday(n);
    assert GridOffset(y, m, firstWeekday) == (w1 - firstWeekday) % 7;
    ModSeven(w1 - firstWeekday, d - 1);
    ModSeven(n, d - firstWeekday);
    ModSeven(n + d - 1, 1 - firstWeekday);
  }

  /**
   * The weekday named above grid column `c` (1 = Sunday): the header row is
   * `shortWeekdaySymbols`, which starts on Sunday whatever the locale.
   */
  function HeaderWeekday(c: int): (w: int)
    requires 0 <= c < 7
    ensures 1 <= w <= 7 && w - 1 == c
  {
    c + 1
  }

  /**
   * As written: the header names the weekday of every day cell exactly when
   * the locale's week starts on Sunday.
   */
  lemma HeaderMatchesOnlySundayFirst(y: int, m: int, firstWeekday: int, d: int)
    requires 1 <= m <= 12 && 1 <= firstWeekday <= 7
    requires 1 <= d <= DaysInMonth(y, m)
    ensures HeaderWeekday((d - 1 + GridOffset(y, m, firstWeekday)) % 7) == Weekday(Date(y, m, d))
      <==> firstWeekday == 1
  {
    ColumnIsWeekday(y, m, firstWeekday, d);
    var w := Weekday(Date(y, m, d));
    var c := (d - 1 + GridOffset(y, m, firstWeekday)) % 7;
    assert c == (w - firstWeekday) % 7;
    if w >= firstWeekday {
      assert c == w - firstWeekday;
    } else {
      assert c == w - firstWeekday + 7;
    }
  }

  /** With Monday first, 1 March 2024 (a Friday) sits under the "Thu" heading. */
  lemma MondayFirstMisnamesMarch2024()
    ensures GridOffset(2024, 3, 2) == 4
    ensures HeaderWeekday(GridOffset(2024, 3, 2)) == 5 && Weekday(Date(2024, 3, 1)) == 6
  {
    March2024();
  }

  /** The header rotated to begin on the locale's first weekday: column `c` is `c` days after it. */
  function RotatedHeaderWeekday(c: int, firstWeekday: int): (w: int)
    requires 0 <= c < 7 && 1 <= firstWeekday <= 7
    ensures 1 <= w <= 7
    ensures (w - firstWeekday) % 7 == c
  {
    (firstWeekday - 1 + c) % 7 + 1
  }

  /** Two weekdays (1..7) that lie the same number of days after a first weekday are equal. */
  lemma SameDistanceSameWeekday(a: int, b: int, firstWeekday: int)
    requires 1 <= a <= 7 && 1 <= b <= 7
    requires (a - firstWeekday) % 7 == (b - firstWeekday) % 7
    ensures a == b
  {
    var p, q := (a - firstWeekday) / 7, (b - firstWeekday) / 7;
    assert a - firstWeekday == 7 * p + (a - firstWeekday) % 7;
    assert b - firstWeekday == 7 * q + (b - firstWeekday) % 7;
    assert a - b == 7 * (p - q);
  }

  /** With the rotated header, every day cell sits under its own weekday, for any first weekday. */
  lemma RotatedHeaderNamesCellWeekday(y: int, m: int, firstWeekday: int, d: int)
    requires 1 <= m <= 12 && 1 <= firstWeekday <= 7
    requires 1 <= d <= DaysInMonth(y, m)
    ensures RotatedHeaderWeekday((d - 1 + GridOffset(y, m, firstWeekday)) % 7, firstWeekday)
      == Weekday(Date(y, m, d))
  {
    ColumnIsWeekday(y, m, firstWeekday, d);
    var c := (d - 1 + GridOffset(y, m, firstWeekday)) % 7;
    SameDistanceSameWeekday(RotatedHeaderWeekday(c, firstWeekday), Weekday(Date(y, m, d)), firstWeekday);
  }

  /** The initial year index `year - 2023` picks a year only for 2023 through 2033. */
  lemma InitialYearIndex(today: int)
    ensures 0 <= ToCivil(today).year - 2023 < |Years| <==> 2023 <= ToCivil(today).year <= 2033
    ensures 2023 <= ToCivil(today).year <= 2033 ==> Years[ToCivil(today).year - 2023] == ToCivil(today).year
  {
  }
}
