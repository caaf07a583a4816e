/**
 * The add-bill form (Bill/AddBillView.swift): its defaults and the request
 * "Save Bill" sends, which splits the picked date into a day, an English
 * month name and a year.
 */
module AddBill {
  import opened Wrappers
  import opened Gregorian
  import opened Records
  import opened BillModel
  import opened DueDates
  import opened BillStore

  /** The repeat choices the picker offers. */
  const BillRepeatOptions: seq<string> := ["Never", "Weekly", "Fortnightly", "Monthly", "Semi-Annually", "Annually"]

  /** The state of a bill form; `date` is the picked day. */
  datatype BillForm = BillForm(
    name: string, accountNumber: string, amount: real, date: int, paymentLink: string,
    billRepeats: string, notification: bool)

  /** A fresh form: empty texts, amount 0, today's date, "Never", notifications off. */
  function NewBillForm(today: int): (f: BillForm)
    ensures f.date == today && f.amount == 0.0
    ensures f.billRepeats in BillRepeatOptions && f.billRepeats == BillRepeatOptions[0]
    ensures !f.notification
    ensures f.name == [] && f.accountNumber == [] && f.paymentLink == []
  {
    BillForm("", "", 0.0, today, "", "Never", false)
  }

  /** The calendar parts of a day: day of month, month name from the table, year. */
  datatype DateParts = DateParts(day: int, month: string, year: int)

  function SplitDate(date: int): (p: DateParts)
    ensures MonthNumber(p.month) == Some(ToCivil(date).month)
    ensures p.day == ToCivil(date).day && p.year == ToCivil(date).year
  {
    var c := ToCivil(date);
    MonthNumberOfName(c.month);
    DateParts(c.day, MonthName(c.month), c.year)
  }

  /** Splitting loses nothing: the parts name the very day they were taken from. */
  lemma SplitDateRoundTrip(date: int)
    ensures var p := SplitDate(date);
      IsValidDate(p.year, MonthNumber(p.month).value, p.day) &&
      Date(p.year, MonthNumber(p.month).value, p.day) == date
  {
  }

  /** Splitting a real calendar day gives back its parts. */
  lemma SplitOfDate(y: int, m: int, d: int)
    requires IsValidDate(y, m, d)
    ensures SplitDate(Date(y, m, d)) == DateParts(d, MonthName(m), y)
  {
    ToCivilOfDate(y, m, d);
  }

  /** "Save Bill": the request `addBill` receives; every other field is passed through unchanged. */
  function SaveBill(f: BillForm): (q: BillRequest)
    ensures q.name == f.name && q.accountNumber == f.accountNumber && q.amount == f.amount
    ensures q.paymentLink == f.paymentLink && q.billRepeats == f.billRepeats && q.notification == f.notification
    ensures DateParts(q.day, q.month, q.year) == SplitDate(f.date)
  {
    var p := SplitDate(f.date);
    BillRequest(f.name, f.accountNumber, f.amount, p.day, p.month, p.year, f.paymentLink, f.billRepeats, f.notification)
  }

  /** A saved bill is due on the day that was picked, whatever identifier it is stored under. */
  lemma SavedBillIsDueOnPickedDay(f: BillForm, id: string)
    ensures DueDate(BillOf(id, SaveBill(f))) == Some(f.date)
  {
    var q := SaveBill(f);
    SplitDateRoundTrip(f.date);
    DueDateOfNamedMonth(BillOf(id, q), MonthNumber(q.month).value);
  }

  /** The saved bill is filed under the collection of the picked day's month and year. */
  lemma SavedBillPartition(f: BillForm)
    ensures Partition(SaveBill(f).year, SaveBill(f).month) == PartitionOf(f.date)
  {
    MonthNumberInjective(SaveBill(f).month, PartitionOf(f.date).month);
  }
}
