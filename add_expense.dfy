/**
 * The add-expense form (Budget/AddExpenseView.swift): its validity rule, its
 * initial month and year picker positions, and the expense "Add Expense"
 * submits.
 */
module AddExpense {
  import opened Wrappers
  import opened Gregorian
  import opened Records
  import opened BillModel

  /** The years the picker offers, `2023...2030`. */
  const ExpenseYears: seq<int> := [2023, 2024, 2025, 2026, 2027, 2028, 2029, 2030]

  /** The state of the form; the two picker positions are indices into `Months` and `ExpenseYears`. */
  datatype ExpenseForm = ExpenseForm(
    name: string, amount: real, selectedCategory: string, showingCategoryInput: bool,
    newCategoryName: string, monthIndex: int, yearIndex: int)

  /** `formIsValid`: a name and a positive amount. */
  function FormIsValid(f: ExpenseForm): (ok: bool)
    ensures ok <==> |f.name| > 0 && f.amount > 0.0
  {
    f.name != "" && f.amount > 0.0
  }

  /** The form as it opens: empty texts, amount 0, pickers on today's month and `year - 2023`. */
  function NewExpenseForm(today: int): (f: ExpenseForm)
    ensures f.amount == 0.0 && !f.showingCategoryInput
    ensures f.monthIndex == ToCivil(today).month - 1
    ensures f.yearIndex == ToCivil(today).year - 2023
  {
    var c := ToCivil(today);
    ExpenseForm("", 0.0, "", false, "", c.month - 1, c.year - 2023)
  }

  /** With the opening amount of 0 the form is invalid, whatever name is typed. */
  lemma OpeningAmountIsInvalid(today: int, name: string)
    ensures !FormIsValid(NewExpenseForm(today).(name := name))
  {
  }

  /** The category submitted: the typed one only while the input is showing, else the picked one. */
  function SubmittedCategory(f: ExpenseForm): (c: string)
    ensures !f.showingCategoryInput ==> c == f.selectedCategory
    ensures f.showingCategoryInput ==> c == f.newCategoryName
  {
    if f.showingCategoryInput then f.newCategoryName else f.selectedCategory
  }

  /** Nothing in the form turns the category input on, so edits of the other fields submit the picked category. */
  lemma PickedCategoryIsSubmitted(today: int, name: string, amount: real, picked: string, typed: string)
    ensures var f := NewExpenseForm(today).(name := name, amount := amount, selectedCategory := picked, newCategoryName := typed);
      SubmittedCategory(f) == picked
  {
  }

  /** The expense `addExpense` receives. */
  datatype ExpenseRequest = ExpenseRequest(name: string, amount: real, month: string, year: int, category: string)

  /**
   * The submitted expense; none when a picker index is out of range, where
   * `months[selectedMonthIndex]` or `years[selectedYearIndex]` would trap.
   */
  function Submission(f: ExpenseForm): (r: Option<ExpenseRequest>)
    ensures r.Some? <==> 0 <= f.monthIndex < 12 && 0 <= f.yearIndex < |ExpenseYears|
    ensures r.Some? ==> r.value.month == MonthName(f.monthIndex + 1) && r.value.year == 2023 + f.yearIndex
    ensures r.Some? ==> r.value.name == f.name && r.value.amount == f.amount && r.value.category == SubmittedCategory(f)
  {
    if 0 <= f.monthIndex < 12 && 0 <= f.yearIndex < |ExpenseYears| then
      Some(ExpenseRequest(f.name, f.amount, Months[f.monthIndex], ExpenseYears[f.yearIndex], SubmittedCategory(f)))
    else None
  }

  /** The opening year position is valid exactly for the years 2023 to 2030. */
  lemma OpeningYearInRange(today: int)
    ensures var f := NewExpenseForm(today);
      0 <= f.yearIndex < |ExpenseYears| <==> 2023 <= ToCivil(today).year <= 2030
  {
  }

  /** Submitted untouched, the expense goes to the collection of today's month and year. */
  lemma OpeningSubmissionPartition(today: int)
    requires 2023 <= ToCivil(today).year <= 2030
    ensures var r := Submission(NewExpenseForm(today));
      r.Some? && Partition(r.value.year, r.value.month) == PartitionOf(today)
      && MonthNumber(r.value.month) == Some(ToCivil(today).month)
  {
    var c := ToCivil(today);
    MonthNumberOfName(c.month);
  }
}
