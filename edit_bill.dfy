/**
 * The edit-bill form (Bill/EditBillView.swift): the form seeded from a bill,
 * the date rebuilt from the bill's "day month year" text, the request "Save"
 * sends and the collection "Delete" targets.
 */
module EditBill {
  import opened Wrappers
  import opened Gregorian
  import opened Records
  import opened BillModel
  import opened BillStore
  import opened AddBill

  /**
   * `dateFormatter.date(from: "\(day) \(month) \(year)")` with format
   * "dd MMMM yyyy": a day exists only for a recognised month name, a year of
   * at least 1 and a day within that month.
   */
  function ParseBillDate(b: Bill): (r: Option<int>)
    ensures r.Some? <==> b.month in Months && b.year >= 1 && IsValidDate(b.year, MonthNumber(b.month).value, b.day)
    ensures r.Some? ==> ToCivil(r.value) == CivilDate(b.year, MonthNumber(b.month).value, b.day)
  {
    match MonthNumber(b.month)
    case Some(m) =>
      if b.year >= 1 && IsValidDate(b.year, m, b.day) then
        ToCivilOfDate(b.year, m, b.day);
        Some(Date(b.year, m, b.day))
      else None
    case None => None
  }

  /** `init`: the form holds the bill's fields, and its date falls back to today when parsing fails. */
  function EditForm(b: Bill, today: int): (f: BillForm)
    ensures f.name == b.name && f.accountNumber == b.accountNumber && f.amount == b.amount
    ensures f.paymentLink == b.paymentLink && f.billRepeats == b.billRepeats && f.notification == b.notification
    ensures f.date == ParseBillDate(b).GetOr(today)
  {
    BillForm(b.name, b.accountNumber, b.amount, ParseBillDate(b).GetOr(today), b.paymentLink, b.billRepeats, b.notification)
  }

  /** "Save": the bill's own identifier and the form's fields, the date split again. */
  function SaveEdit(b: Bill, f: BillForm): (r: (string, BillRequest))
    ensures r.0 == b.id
    ensures r.1 == SaveBill(f)
  {
    (b.id, SaveBill(f))
  }

  /** Saving an untouched form of a bill with a real date sends back the bill itself. */
  lemma UntouchedSaveKeepsBill(b: Bill, today: int)
    requires b.month in Months && b.year >= 1 && IsValidDate(b.year, MonthNumber(b.month).value, b.day)
    ensures var (id, q) := SaveEdit(b, EditForm(b, today)); BillOf(id, q) == b
  {
    var m := MonthNumber(b.month).value;
    SplitOfDate(b.year, m, b.day);
  }

  /** A bill whose text does not parse opens on today, and saving it untouched moves it to today. */
  lemma UnparsableDateFallsBackToToday(b: Bill, today: int)
    requires b.month !in Months
    ensures EditForm(b, today).date == today
    ensures var q := SaveEdit(b, EditForm(b, today)).1;
      DateParts(q.day, q.month, q.year) == SplitDate(today) && q.month != b.month
  {
    var q := SaveEdit(b, EditForm(b, today)).1;
    assert q.month in Months;
  }

  /** "Delete": the bill's identifier and the collection of its original year and month. */
  function DeleteTarget(b: Bill, f: BillForm): (r: (string, Partition))
    ensures r.0 == b.id && r.1 == Partition(b.year, b.month)
  {
    (b.id, Partition(b.year, b.month))
  }

  /** Whatever date the form was moved to, deletion still targets the stored collection. */
  lemma DeleteIgnoresEditedDate(b: Bill, f: BillForm, date: int)
    ensures DeleteTarget(b, f.(date := date)) == DeleteTarget(b, f)
  {
  }
}
