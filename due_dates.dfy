/**
 * Days-until-due and the "days left" badge. The bills screen and the home
 * screen carry identical copies of this logic; both are modelled here once.
 * "Today" is a day number supplied by the caller.
 */
module DueDates {
  import opened Wrappers
  import opened Gregorian
  import opened BillModel

  /**
   * The day a bill is due: its month name resolved to a number, then the
   * (year, month, day) components turned into a date leniently.
   */
  function DueDate(b: Bill): (r: Option<int>)
    ensures r.None? <==> b.month !in Months
  {
    match MonthNumber(b.month)
    case None => None
    case Some(m) => Some(Date(b.year, m, b.day))
  }

  /** A bill filed under the name of month `m` is due on day `day` of month `m`. */
  lemma DueDateOfNamedMonth(b: Bill, m: int)
    requires 1 <= m <= 12 && b.month == MonthName(m)
    ensures DueDate(b) == Some(Date(b.year, m, b.day))
  {
    MonthNumberOfName(m);
  }

  /** For a real calendar day, the due date is that very day: the civil date of `DueDate` is the bill's own. */
  lemma DueDateIsCalendarDay(b: Bill)
    requires b.month in Months
    requires IsValidDate(b.year, MonthNumber(b.month).value, b.day)
    ensures ToCivil(DueDate(b).value) == CivilDate(b.year, MonthNumber(b.month).value, b.day)
  {
    ToCivilOfDate(b.year, MonthNumber(b.month).value, b.day);
  }

  /** Whole days from the start of `today` to the start of the due day; negative when overdue. */
  function DaysUntilDue(b: Bill, today: int): (r: Option<int>)
    ensures r.None? <==> b.month !in Months
    ensures r.Some? ==> DueDate(b) == Some(today + r.value)
  {
    match DueDate(b)
    case None => None
    case Some(due) => Some(due - today)
  }

  /** A bill falling on `today` is due in 0 days. */
  lemma DueTodayIsZero(b: Bill, today: int)
    requires MonthNumber(b.month).Some?
    requires IsValidDate(b.year, MonthNumber(b.month).value, b.day)
    requires ToCivil(today) == CivilDate(b.year, MonthNumber(b.month).value, b.day)
    ensures DaysUntilDue(b, today) == Some(0)
  {
    var m := MonthNumber(b.month).value;
    DueDateIsCalendarDay(b);
    assert ToCivil(today) == ToCivil(DueDate(b).value);
    ToCivilOfDate(b.year, m, b.day);
  }

  /** Moving the due day one day later adds exactly one day. */
  lemma OneDayLater(b: Bill, today: int)
    requires b.month in Months
    ensures DaysUntilDue(b.(day := b.day + 1), today).value == DaysUntilDue(b, today).value + 1
  {
    NextDay(b.year, MonthNumber(b.month).value, b.day);
  }

  /** A day later "today" leaves one day fewer. */
  lemma OneDayFewer(b: Bill, today: int)
    requires b.month in Months
    ensures DaysUntilDue(b, today + 1).value == DaysUntilDue(b, today).value - 1
  {
  }

  /** The countdown depends on the bill only through its day, month and year. */
  lemma CountdownIgnoresOtherFields(b: Bill, b': Bill, today: int)
    requires b.day == b'.day && b.month == b'.month && b.year == b'.year
    ensures DaysUntilDue(b, today) == DaysUntilDue(b', today)
  {
  }

  datatype Colour = Red | Green

  /** The "N days left" badge: the count, the unit word and the text colour. */
  datatype Badge = Badge(days: int, unit: string, colour: Colour)

  /** Singular unit exactly for 1; red up to 7 days (also due today and overdue), green above. */
  function DaysLeftBadge(n: int): (r: Badge)
    ensures r.days == n
    ensures r.unit == "day" <==> n == 1
    ensures r.unit == "days" <==> n != 1
    ensures r.colour == Red <==> n <= 7
    ensures r.colour == Green <==> n > 7
  {
    if n == 1 then Badge(n, "day", Red)
    else Badge(n, "days", if n <= 7 then Red else Green)
  }

  /** The badge beside an upcoming bill; none when its month name is not recognised. */
  function BadgeFor(b: Bill, today: int): (r: Option<Badge>)
    ensures r.None? <==> b.month !in Months
    ensures r.Some? ==> r.value == DaysLeftBadge(DaysUntilDue(b, today).value)
  {
    match DaysUntilDue(b, today)
    case None => None
    case Some(n) => Some(DaysLeftBadge(n))
  }

  /** The boundaries of the badge rule: 0 and 2 read "days", 1 reads "day"; 7 is red, 8 green. */
  lemma BadgeBoundaries()
    ensures DaysLeftBadge(1) == Badge(1, "day", Red)
    ensures DaysLeftBadge(0) == Badge(0, "days", Red) && DaysLeftBadge(2) == Badge(2, "days", Red)
    ensures DaysLeftBadge(7).colour == Red && DaysLeftBadge(8).colour == Green
    ensures DaysLeftBadge(-3) == Badge(-3, "days", Red)
  {
  }
}
