/**
 * The `Bill` record and the conversion between month names and month
 * numbers (Model/Bill.swift). The month-name table is the fixed English
 * list the bill screens use.
 */
module BillModel {
  import opened Wrappers
  import opened Gregorian
  import opened Records

  /** A bill as the view models hold it: a plain value with ten fields. */
  datatype Bill = Bill(
    id: string,
    name: string,
    accountNumber: string,
    amount: real,
    day: int,
    month: string,
    year: int,
    paymentLink: string,
    billRepeats: string,
    notification: bool)

  const Months: seq<string> := ["January", "February", "March", "April", "May", "June",
    "July", "August", "September", "October", "November", "December"]

  /** The full name of month `m` (a month-symbol table lookup). */
  function MonthName(m: int): string
    requires 1 <= m <= 12
  {
    Months[m - 1]
  }

  /** The number 1..12 of the month called `name`, searching the table from position `k`. */
  function FindMonth(name: string, k: nat): (r: Option<int>)
    requires k <= 12
    ensures r.Some? ==> k + 1 <= r.value <= 12 && Months[r.value - 1] == name
    ensures r.None? <==> forall i :: k <= i < 12 ==> Months[i] != name
    decreases 12 - k
  {
    if k == 12 then None
    else if Months[k] == name then Some(k + 1)
    else FindMonth(name, k + 1)
  }

  /**
   * `Date.monthNumber(from:)`: the month number of a full month name, or
   * nothing when the name is not in the table.
   */
  function MonthNumber(name: string): (r: Option<int>)
    ensures r.Some? ==> 1 <= r.value <= 12 && MonthName(r.value) == name
    ensures r.None? <==> name !in Months
  {
    FindMonth(name, 0)
  }

  /** Every name in the table reads back as its own 1-based position. */
  lemma MonthNumberOfName(m: int)
    requires 1 <= m <= 12
    ensures MonthNumber(MonthName(m)) == Some(m)
  {
    var r := MonthNumber(MonthName(m));
    assert r.Some?;
    MonthNamesDistinct(r.value, m);
  }

  /** No name appears twice in the table. */
  lemma MonthNamesDistinct(m1: int, m2: int)
    requires 1 <= m1 <= 12 && 1 <= m2 <= 12
    requires MonthName(m1) == MonthName(m2)
    ensures m1 == m2
  {
  }

  /** Two names with the same month number are the same name. */
  lemma MonthNumberInjective(a: string, b: string)
    requires MonthNumber(a).Some? && MonthNumber(a) == MonthNumber(b)
    ensures a == b
  {
  }

  /** A misspelt name such as "Marchh" is not recognised. */
  lemma MisspeltMonth()
    ensures MonthNumber("Marchh") == None
  {
    forall i | 0 <= i < 12 ensures Months[i] != "Marchh" {
      assert |Months[i]| != 6 || Months[i][0] != 'M';
    }
  }

  /**
   * The current year and month name of day `today`, as `Calendar.component(.year)`
   * and a "MMMM" formatter give them.
   */
  function PartitionOf(today: int): (p: Partition)
    ensures p.year == ToCivil(today).year
    ensures MonthNumber(p.month) == Some(ToCivil(today).month)
  {
    var c := ToCivil(today);
    MonthNumberOfName(c.month);
    Partition(c.year, MonthName(c.month))
  }
}
