/**
 * The home screen (Home/homeView.swift): the current month and year it is
 * built with, and the countdown badges beside the upcoming bills. The badge
 * and the countdown are the ones in `DueDates`; the home screen's copy of
 * `daysUntilDue` is the same computation.
 */
module Home {
  import opened Wrappers
  import opened Gregorian
  import opened Records
  import opened BillModel
  import opened DueDates

  /** The constants `init` binds: the year as a number and the month's full English name. */
  datatype Header = Header(currentYear: int, currentMonth: string)

  /** `init`: year and month name both taken from the same "today". */
  function HomeInit(today: int): (h: Header)
    ensures h.currentYear == ToCivil(today).year
    ensures MonthNumber(h.currentMonth) == Some(ToCivil(today).month)
  {
    var p := PartitionOf(today);
    Header(p.year, p.month)
  }

  /**
   * The home screen asks the budget for the same (year, month) collection the
   * upcoming-bills selection reads.
   */
  lemma HomeMonthIsUpcomingMonth(today: int)
    ensures Partition(HomeInit(today).currentYear, HomeInit(today).currentMonth) == PartitionOf(today)
  {
  }

  /** The month shown on the home screen contains today: its 1st is on or before today, and its last day on or after. */
  lemma HomeMonthContainsToday(today: int)
    ensures var h := HomeInit(today);
      var m := MonthNumber(h.currentMonth).value;
      Date(h.currentYear, m, 1) <= today <= Date(h.currentYear, m, DaysInMonth(h.currentYear, m))
  {
    var c := ToCivil(today);
    DateInYear(c.year, c.month, 1);
    DateInYear(c.year, c.month, c.day);
    DateInYear(c.year, c.month, DaysInMonth(c.year, c.month));
  }

  /**
   * The badge beside an upcoming bill: for every bill whose month name is
   * recognised, "1 day" red, otherwise "N days", red up to 7 and green above.
   */
  lemma HomeBadgeRule(b: Bill, today: int)
    requires b.month in Months
    ensures var n := DaysUntilDue(b, today).value;
      var badge := BadgeFor(b, today).value;
      && badge.days == n
      && (badge.unit == "day" <==> n == 1)
      && (badge.colour == Red <==> n <= 7)
  {
  }

  /** A bill due today shows "0 days" in red on the home screen. */
  lemma DueTodayBadge(b: Bill, today: int)
    requires MonthNumber(b.month).Some?
    requires IsValidDate(b.year, MonthNumber(b.month).value, b.day)
    requires ToCivil(today) == CivilDate(b.year, MonthNumber(b.month).value, b.day)
    ensures BadgeFor(b, today) == Some(Badge(0, "days", Red))
  {
    DueTodayIsZero(b, today);
  }
}
