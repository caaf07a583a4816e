# MoneyManager core logic in Dafny

MoneyManager is an iOS budgeting app: a SwiftUI front end over a Firestore
store. This project models the app's logic once the remote store, the
clock and the locale are turned into explicit inputs. The model covers:

- **The bill calendar.** This is the month grid with its weekday offset,
  the first-match lookup of a day's bill, the "days until due" count and
  the "1 day / N days, red or green" badge.
- **The bill view model.** This covers the validating document-to-`Bill`
  mapping, the "upcoming bills" filter/sort/prefix-2 pipeline and the
  assignments to its published fields.
- **The budget view model.** This covers the income and expense running
  sums, the per-category totals built in a dictionary and sorted without
  regard to case, the sorted category names, and the local category list
  with its no-duplicate append and first-occurrence removal.
- **Small helpers.** These are the currency re-ordering, the two form
  validators, and the split of a picked date into day, month name and
  year for saving a bill, together with its rebuild when a bill is edited.

Each part is modelled with these conventions:

- **Dates.** A date is a proleptic Gregorian day number (Rata Die: day 1 is
  Monday 1 January of year 1). `Gregorian.Date(y, m, d)` builds one leniently,
  as `Calendar.date(from:)` does: a day past the end of a month rolls into
  the next month. `Gregorian.ToCivil` splits a day number back into its
  parts, and the two are proved to be inverse.
- **Parameters.** "Today" is a day number, and the locale's `firstWeekday`
  is a parameter in 1..7. The month names are the fixed English table in
  `Bill/billView.swift:20`.
- **The remote store.** It is `Records.Store`, a map from a
  `(year, month name)` partition to the documents stored there. Each
  document is an ID plus a field map of typed values. A fetch gets a
  `reachable` flag: false stands for "not signed in" or "the read threw".
  In either case the source leaves the published state as it was.
- **Modules.** There is one module per core source file:
  - `BillCalendar` for `billView.swift`;
  - `BillStore` for `BillViewModel.swift`;
  - `BillModel` for `Bill.swift`;
  - `Home` for `homeView.swift`;
  - `Budget` for `BudgetViewModel.swift`;
  - `Currency`, `EditProfile`, `AddExpense`, `AddBill` and `EditBill` for
    the views of the same names.
- **Shared modules.** `Wrappers` holds `Option`. `Gregorian` holds the
  calendar. `Ordering` holds Swift's `filter`, `compactMap`, `sorted` and
  `prefix`, and string comparison and lower-casing. `Records` holds
  documents and the store. `DueDates` holds the due-day count and the
  badge, shared by the bills screen and the home screen, which carry
  identical copies of them.
- **State.** The two view models, whose `@Published` fields are
  overwritten, are Dafny classes (`BillStore.BillViewModel`,
  `Budget.BudgetViewModel`). Every fetch is one atomic step that assigns
  the fields. The loops in `fetchIncome`, `fetchExpenses` and
  `fetchCategoryTotals` are `while` loops proved against specification
  functions.

`BillViewModel.fetchUpcomingBills` is modelled as written
(`BillStore.LegacyUpcoming`). Its upcoming selection rebuilds each due date
with `Int(bill.month)`. Stored months are names, so the month component is
always missing and the date falls in January. It then keeps the bills
dated on or before today, although the comment above it says "after or on
the current day". The corrected selection, `BillStore.Upcoming`, uses the
real month and keeps bills due today or later. Both are instances of one
selection function, `BillStore.SelectUpcoming`, whose date key and
comparison are parameters; its length, order, membership and completeness
are proved for any key. The view-model method keeps the shipped behaviour.
Everything else in the model that needs a due date uses the corrected
`DueDates.DueDate`. See "## Findings".

## Model

| member | source | states |
|---|---|---|
| Gregorian.DaysInYear | MoneyManager/Bill/billView.swift:71 | a year has 365 or 366 days, 366 exactly in a leap year |
| Gregorian.DaysInMonth | MoneyManager/Bill/billView.swift:71 | a month has between 28 and 31 days |
| Gregorian.FebruaryLength | MoneyManager/Bill/billView.swift:70-71 | February has 29 days exactly when the year is divisible by 4 and is not a century year that 400 does not divide (2000 and 2024 leap, 1900 and 2023 not) |
| Gregorian.Weekday | MoneyManager/Bill/billView.swift:72 | the weekday component is in 1..7, with 1 for Sunday |
| Gregorian.March2024 | MoneyManager/Bill/billView.swift:72 | 1 March 2024 has weekday 6 (a Friday), which pins the weekday numbering to the calendar |
| Gregorian.Date | MoneyManager/Bill/billView.swift:223 | the lenient `Calendar.date(from:)`: an in-range month adds the days before the year and the month to the day; month 13 is January of the next year and month 0 is December of the previous one. Gregorian.ToCivil and Gregorian.ToCivilOfDate prove it inverse to the component split on valid dates |
| Gregorian.DateInYear | MoneyManager/Bill/billView.swift:223 | for a month in 1..12, the lenient date is the days before the year, plus the days before the month, plus the day |
| Gregorian.NextDay | MoneyManager/Home/homeView.swift:196-201 | moving the day component up by one moves the date exactly one day later, including across a month's end |
| Gregorian.ToCivil | MoneyManager/Bill/AddBillView.swift:53 | the day, month and year read back from any date form a valid calendar date that builds that same date |
| Gregorian.ToCivilOfDate | MoneyManager/Bill/AddBillView.swift:53 | reading back the components of a valid (year, month, day) gives the same components |
| Gregorian.DateInjective | MoneyManager/Bill/billView.swift:223 | two valid calendar dates that give the same day number are the same date |
| Ordering.Filter | MoneyManager/Settings/CurrencyView.swift:27-28 | the filtered list is no longer than the input; its elements come from the input and pass the test; every passing input element is kept; it is a sub-multiset |
| Ordering.FilterAppend | MoneyManager/Settings/CurrencyView.swift:27-28 | filtering distributes over concatenation, which is what makes it order-preserving |
| Ordering.FilterSplit | MoneyManager/Settings/CurrencyView.swift:27-29 | a test and its negation split a list into two parts whose multisets add up to the list's |
| Ordering.CompactMap | MoneyManager/Bill/ViewModel/BillViewModel.swift:41-55 | the result is no longer than the input and each element is the image of some input element |
| Ordering.CompactMapAppend | MoneyManager/Bill/ViewModel/BillViewModel.swift:41 | compactMap distributes over concatenation, which keeps the snapshot order |
| Ordering.CompactMapMember | MoneyManager/Budget/ViewModel/BudgetViewModel.swift:55-56 | a value is in the compactMap result exactly when some element maps to it |
| Ordering.CompactMapTotal | MoneyManager/Bill/ViewModel/BillViewModel.swift:41-55 | when every element maps to a value, nothing is dropped and position i holds the image of element i |
| Ordering.SortBy | MoneyManager/Bill/ViewModel/BillViewModel.swift:132-136 | sorting gives a permutation of the same length |
| Ordering.SortBySorted | MoneyManager/Bill/ViewModel/BillViewModel.swift:132-136 | under a total preorder the sorted list is ordered |
| Ordering.Take | MoneyManager/Bill/ViewModel/BillViewModel.swift:138 | `prefix(n)` has min(n, length) elements, equal to the first ones of the list |
| Ordering.SortedPrefixBound | MoneyManager/Bill/ViewModel/BillViewModel.swift:138 | the prefix of a sorted list is a sub-multiset; every element left out comes after a prefix that is full and is not below its last element |
| Ordering.LexLeTotalPreorder | MoneyManager/Budget/ViewModel/BudgetViewModel.swift:57 | string `<` by character code is a total preorder |
| Ordering.LexLeAntisymmetric | MoneyManager/Budget/ViewModel/BudgetViewModel.swift:57 | two strings that are each at most the other are equal |
| Ordering.Lower | MoneyManager/Budget/ViewModel/BudgetViewModel.swift:111 | lower-casing keeps the length and lower-cases each character on its own |
| Records.StringField | MoneyManager/Bill/ViewModel/BillViewModel.swift:42 | `as? String` yields a value exactly when the key is present and holds a string |
| Records.IntField | MoneyManager/Bill/ViewModel/BillViewModel.swift:44 | `as? Int` yields a value exactly when the key is present and holds an integer |
| Records.DoubleField | MoneyManager/Bill/ViewModel/BillViewModel.swift:43 | `as? Double` yields a value exactly when the key is present and holds a Double |
| Records.BoolField | MoneyManager/Bill/ViewModel/BillViewModel.swift:50 | `as? Bool` yields a value exactly when the key is present and holds a Bool |
| Records.Collection | MoneyManager/Bill/ViewModel/BillViewModel.swift:37-39 | a stored partition reads as its own documents, and a partition with nothing stored reads as an empty snapshot |
| BillModel.MonthNumber | MoneyManager/Model/Bill.swift:24-30 | a result is in 1..12 and names that month; there is no result exactly when the string is not a month name |
| BillModel.MonthNumberOfName | MoneyManager/Bill/ViewModel/BillViewModel.swift:27-32 | each of the twelve names maps back to its 1-based position, which is the view model's own copy of the same lookup |
| BillModel.MonthNamesDistinct | MoneyManager/Bill/billView.swift:20 | no two positions of the month table hold the same name |
| BillModel.MonthNumberInjective | MoneyManager/Model/Bill.swift:24-30 | two recognised names with the same number are the same name |
| BillModel.MisspeltMonth | MoneyManager/Model/Bill.swift:27 | "Marchh" is not recognised |
| BillModel.PartitionOf | MoneyManager/Bill/ViewModel/BillViewModel.swift:99-105 | the upcoming bills are read from today's year and the name of today's month |
| DueDates.DueDate | MoneyManager/Bill/billView.swift:222-223 | a bill has a due date exactly when its month name is recognised |
| DueDates.DueDateOfNamedMonth | MoneyManager/Bill/billView.swift:222-223 | a bill filed under month m's name is due on (year, m, day) |
| DueDates.DueDateIsCalendarDay | MoneyManager/Bill/billView.swift:223 | for a real calendar date, the due date reads back as the bill's own day, month and year |
| DueDates.DaysUntilDue | MoneyManager/Bill/billView.swift:219-234 | no count exactly when the month name is unrecognised; otherwise today plus the count is the due date |
| DueDates.DueTodayIsZero | MoneyManager/Home/homeView.swift:196-201 | a bill due on today's calendar day is 0 days away |
| DueDates.OneDayLater | MoneyManager/Home/homeView.swift:196-201 | a due day one later gives a count one higher |
| DueDates.OneDayFewer | MoneyManager/Bill/billView.swift:228-233 | a day later, one day fewer is left |
| DueDates.CountdownIgnoresOtherFields | MoneyManager/Home/homeView.swift:186-202 | two bills with the same day, month and year have the same count, whatever their other fields |
| DueDates.DaysLeftBadge | MoneyManager/Bill/billView.swift:119-131 | the unit is "day" exactly for 1, "days" otherwise; red exactly when the count is at most 7, green above |
| DueDates.BadgeFor | MoneyManager/Bill/billView.swift:119-134 | a bill with an unrecognised month shows no badge; otherwise its badge is the rule applied to its count |
| DueDates.BadgeBoundaries | MoneyManager/Bill/billView.swift:120-131 | 1 is "1 day" red; 0, 2 and -3 are plural and red; 7 is red and 8 green |
| BillCalendar.AdjustedOffset | MoneyManager/Bill/billView.swift:72-75 | with both weekdays in 1..7, the offset is in 0..6 and is their difference taken modulo 7 |
| BillCalendar.GridOffset | MoneyManager/Bill/billView.swift:70-75 | the offset of the selected month's first day is in 0..6 |
| BillCalendar.FirstFalling | MoneyManager/Bill/billView.swift:204-206 | the index found is the first bill that falls on the day; none before it does |
| BillCalendar.BillForDay | MoneyManager/Bill/billView.swift:200-207 | nil exactly when no monthly bill has that day, month name and year; otherwise the first bill that does |
| BillCalendar.MonthGrid | MoneyManager/Bill/billView.swift:76-96 | the grid has days-in-month plus offset cells, and a cell is blank exactly when its index is below the offset |
| BillCalendar.DayCellAt | MoneyManager/Bill/billView.swift:80-92 | day d sits at index d - 1 + offset and carries the bill found for d |
| BillCalendar.GridDaysIncrease | MoneyManager/Bill/billView.swift:79-96 | the day cells carry 1..days-in-month, each once, in increasing order |
| BillCalendar.ColumnIsWeekday | MoneyManager/Bill/billView.swift:72-82 | day d's index modulo 7 equals its weekday minus `firstWeekday`, modulo 7 |
| BillCalendar.InitialYearIndex | MoneyManager/Bill/billView.swift:14-19 | the initial year index is valid exactly when the current year is in 2023..2033, and then it picks the current year |
| BillCalendar.HeaderWeekday | MoneyManager/Bill/billView.swift:21 | the header's column c names weekday c + 1 (Sunday first), whatever the locale |
| BillCalendar.HeaderMatchesOnlySundayFirst | MoneyManager/Bill/billView.swift:21-82 | as written, the heading above a day cell is that day's weekday if and only if the locale's first weekday is Sunday |
| BillCalendar.MondayFirstMisnamesMarch2024 | MoneyManager/Bill/billView.swift:21-82 | with Monday first, 1 March 2024 (a Friday) goes in column 4, whose heading is Thursday |
| BillCalendar.RotatedHeaderWeekday | MoneyManager/Bill/billView.swift:21 | a header rotated to the first weekday names, in column c, the weekday c days after it |
| BillCalendar.RotatedHeaderNamesCellWeekday | MoneyManager/Bill/billView.swift:21-82 | with the rotated header, every day cell sits under its own weekday for every first weekday |
| BillStore.ReadBill | MoneyManager/Bill/ViewModel/BillViewModel.swift:41-55 | a document yields a bill exactly when all nine fields are present with their types; the bill's id is the document ID |
| BillStore.MapBills | MoneyManager/Bill/ViewModel/BillViewModel.swift:41-55 | every mapped bill is read from some document of the snapshot |
| BillStore.MapBillsAppend | MoneyManager/Bill/ViewModel/BillViewModel.swift:41 | the mapping of a concatenation is the concatenation of the mappings, which keeps snapshot order |
| BillStore.DropsMalformed | MoneyManager/Bill/ViewModel/BillViewModel.swift:50-53 | a document missing a field contributes nothing, wherever it stands |
| BillStore.MapsAllWellFormed | MoneyManager/Bill/ViewModel/BillViewModel.swift:41-55 | when every document is well formed, position i holds the bill read from document i |
| BillStore.ReadIgnoresStoredId | MoneyManager/Bill/ViewModel/BillViewModel.swift:54 | the stored "id" field has no influence on the mapped bill |
| BillStore.NewBillRecord | MoneyManager/Bill/ViewModel/BillViewModel.swift:73-84 | the record `addBill` stores carries the fresh id under "id" |
| BillStore.AddedBillReadsBack | MoneyManager/Bill/ViewModel/BillViewModel.swift:73-87 | a record written by `addBill` maps back to the requested bill, identified by the document ID rather than the fresh id |
| BillStore.UpdatedBillRecord | MoneyManager/Bill/ViewModel/BillViewModel.swift:174-185 | `updateData` keeps every field it does not name |
| BillStore.EditedBillReadsBack | MoneyManager/Bill/ViewModel/BillViewModel.swift:174-185 | an edited document maps back to the edited bill under its own document ID |
| BillStore.DecodeBill | MoneyManager/Bill/ViewModel/BillViewModel.swift:155 | decoding succeeds exactly when the nine fields and the stored "id" are present, and only the id differs from the manual mapping; BillStore.AddedBillDecodes proves the round trip from `addBill` |
| BillStore.AddedBillDecodes | MoneyManager/Bill/ViewModel/BillViewModel.swift:155 | decoding a record written by `addBill` gives the bill under its fresh id |
| BillStore.Candidates | MoneyManager/Bill/ViewModel/BillViewModel.swift:126-130 | the filtered bills are exactly the bills with a date that passes the comparison |
| BillStore.ByDueTotal | MoneyManager/Bill/ViewModel/BillViewModel.swift:132-136 | ordering by the date key is a total preorder |
| BillStore.SelectUpcoming | MoneyManager/Bill/ViewModel/BillViewModel.swift:126-138 | for any date key and comparison, at most 2 bills (fewer only when fewer qualify); each is from the input and qualifies; ordered by date; no qualifying bill left out is earlier than the last one returned |
| BillStore.ParseInt | MoneyManager/Bill/ViewModel/BillViewModel.swift:127 | `Int(_:)` accepts only a string that starts with a sign or a digit |
| BillStore.MonthNamesAreNotNumbers | MoneyManager/Bill/ViewModel/BillViewModel.swift:127 | no month name parses as an integer |
| BillStore.LegacyDueDate | MoneyManager/Bill/ViewModel/BillViewModel.swift:133-134 | the shipped date always exists and takes the integer parse of the month name, 1 when it does not parse; what that means for stored bills is proved in BillStore.LegacyMonthIsJanuary and BillStore.LegacyDateIsJanuary |
| BillStore.LegacyMonthIsJanuary | MoneyManager/Bill/ViewModel/BillViewModel.swift:127 | for every stored month name, the shipped date is in January |
| BillStore.LegacyDateIsJanuary | MoneyManager/Bill/ViewModel/BillViewModel.swift:127 | for any month after January, the shipped date is strictly earlier than the real due date |
| BillStore.LegacyUpcoming | MoneyManager/Bill/ViewModel/BillViewModel.swift:126-138 | the shipped filter, sort and `prefix(2)`: at most 2 bills, each from the input with a shipped date on or before today; BillStore.LegacyShape adds the order and BillStore.OctoberLegacy an instance |
| BillStore.Upcoming | MoneyManager/Bill/ViewModel/BillViewModel.swift:125-138 | the selection the comment describes: at most 2 bills, each from the input with a real due date on or after today; BillStore.UpcomingIsSoonestDue proves that they are the soonest ones |
| BillStore.LegacyShape | MoneyManager/Bill/ViewModel/BillViewModel.swift:126-138 | the shipped selection has at most 2 bills, each from the input with a shipped date on or before today, ordered by that date |
| BillStore.UpcomingIsSoonestDue | MoneyManager/Bill/ViewModel/BillViewModel.swift:125-138 | the corrected selection has at most 2 bills, each due today or later; any bill due today or later that is left out is due no sooner than the second one |
| BillStore.OctoberDueDates | MoneyManager/Bill/ViewModel/BillViewModel.swift:125 | on 14 October 2026, a bill for the 20th is due in 6 days and one for the 1st was due 13 days ago |
| BillStore.OctoberLegacyDates | MoneyManager/Bill/ViewModel/BillViewModel.swift:127-128 | the shipped dates of both October bills precede 14 October 2026 |
| BillStore.OctoberLegacy | MoneyManager/Bill/ViewModel/BillViewModel.swift:126-138 | on 14 October 2026 the shipped selection lists the overdue 1 October bill first, then the 20 October one |
| BillStore.OctoberCorrected | MoneyManager/Bill/ViewModel/BillViewModel.swift:125 | on the same day the corrected selection lists only the 20 October bill |
| BillStore.BillViewModel.constructor | MoneyManager/Bill/ViewModel/BillViewModel.swift:18-24 | no selected bill and empty upcoming and monthly lists |
| BillStore.BillViewModel.FetchUpcomingBills | MoneyManager/Bill/ViewModel/BillViewModel.swift:97-146 | on a successful read, `upcomingBills` becomes the shipped selection over the bills mapped from today's partition; otherwise it is unchanged; the other fields are unchanged |
| BillStore.BillViewModel.FetchBillsForMonth | MoneyManager/Bill/ViewModel/BillViewModel.swift:35-62 | when the month read succeeds, `monthlyBills` is replaced wholesale by the mapped snapshot of that partition, and otherwise it is unchanged; the upcoming list is refreshed only when the month read and the nested upcoming read both succeed, and otherwise it keeps its old value |
| BillStore.BillViewModel.FetchSelectedBill | MoneyManager/Bill/ViewModel/BillViewModel.swift:148-166 | `selectedBill` becomes the decoded document with that ID when it exists and decodes; otherwise it is unchanged |
| BillStore.FindDocument | MoneyManager/Bill/ViewModel/BillViewModel.swift:150-153 | a found document has the requested ID and belongs to the partition; none is found exactly when no document there has that ID |
| BillStore.UpcomingFromCurrentMonth | MoneyManager/Bill/ViewModel/BillViewModel.swift:99-105 | every upcoming bill is read from a document of the current month's partition, never from the next month |
| Home.HomeInit | MoneyManager/Home/homeView.swift:23-34 | the header year is today's year and the header month name is today's month's name |
| Home.HomeMonthIsUpcomingMonth | MoneyManager/Home/homeView.swift:24-33 | the home header names the same partition the upcoming bills are read from |
| Home.HomeMonthContainsToday | MoneyManager/Home/homeView.swift:24-33 | today lies between the first and the last day of the header's month |
| Home.HomeBadgeRule | MoneyManager/Home/homeView.swift:134-147 | the home badge follows the same rule as the bills screen: singular exactly for 1, red exactly up to 7 |
| Home.DueTodayBadge | MoneyManager/Home/homeView.swift:186-202 | a bill due today shows "0 days" in red |
| Budget.AmountSumAppend | MoneyManager/Budget/ViewModel/BudgetViewModel.swift:133-138 | the running sum over two snapshots joined is the sum of their sums |
| Budget.SkipsMalformedAmount | MoneyManager/Budget/ViewModel/BudgetViewModel.swift:135 | a document without a Double amount adds nothing, wherever it stands |
| Budget.TotalAmount | MoneyManager/Budget/ViewModel/BudgetViewModel.swift:133-138 | the loop's total is the sum of the Double amounts, 0 for an empty snapshot |
| Budget.AbsentCategorySum | MoneyManager/Budget/ViewModel/BudgetViewModel.swift:102-108 | a category that no well-formed document names totals 0 |
| Budget.CategorySumIsFilteredSum | MoneyManager/Budget/ViewModel/BudgetViewModel.swift:102-108 | a category's total is the amount total of exactly the documents filed under it |
| Budget.SkipsMalformedEntry | MoneyManager/Budget/ViewModel/BudgetViewModel.swift:103-105 | a document lacking a string category or a Double amount changes neither the categories nor any total |
| Budget.GroupByCategory | MoneyManager/Budget/ViewModel/BudgetViewModel.swift:99-108 | the dictionary's keys are the categories seen, and each value is that category's total |
| Budget.Entries | MoneyManager/Budget/ViewModel/BudgetViewModel.swift:110 | one entry per dictionary key with its value, no name twice, every key present |
| Budget.CategoryTotals | MoneyManager/Budget/ViewModel/BudgetViewModel.swift:99-111 | no name twice, every category present with its total, sorted by lower-cased name |
| Budget.SortedByLowerName | MoneyManager/Budget/ViewModel/BudgetViewModel.swift:111 | sorting by lower-cased name orders the entries by lower-cased name |
| Budget.SameEntries | MoneyManager/Budget/ViewModel/BudgetViewModel.swift:110-111 | re-ordering distinct-named entries keeps them distinct-named and keeps the same entries |
| Budget.SortedCategoryNames | MoneyManager/Budget/ViewModel/BudgetViewModel.swift:55-57 | the names are a permutation of the string names in the snapshot, in ascending order |
| Budget.CategoryNameListed | MoneyManager/Budget/ViewModel/BudgetViewModel.swift:55-57 | a name is listed exactly when some document carries it as a string |
| Budget.AddUnique | MoneyManager/Budget/ViewModel/BudgetViewModel.swift:241-249 | a name already present leaves the list unchanged; otherwise it is appended once after the untouched existing entries |
| Budget.AddUniqueKeepsDistinct | MoneyManager/Budget/ViewModel/BudgetViewModel.swift:241-249 | a list without duplicates stays without duplicates |
| Budget.AddUniqueIdempotent | MoneyManager/Budget/ViewModel/BudgetViewModel.swift:247-248 | adding the same name twice is the same as adding it once |
| Budget.FirstIndex | MoneyManager/Budget/ViewModel/BudgetViewModel.swift:281 | `firstIndex(of:)` is the position of the first occurrence, nil exactly when the name is absent |
| Budget.RemoveFirst | MoneyManager/Budget/ViewModel/BudgetViewModel.swift:281-283 | an absent name leaves the list unchanged; otherwise only its first occurrence is removed and the others keep their order |
| Budget.RemoveFirstFromDistinct | MoneyManager/Budget/ViewModel/BudgetViewModel.swift:281-283 | in a list without duplicates, removal takes the name out entirely and keeps every other name |
| Budget.RemoveUndoesAdd | MoneyManager/Budget/ViewModel/BudgetViewModel.swift:281-283 | removing a name just added to a list that lacked it restores the list |
| Budget.BudgetViewModel.constructor | MoneyManager/Budget/ViewModel/BudgetViewModel.swift:22-35 | empty categories and totals, both sums 0 |
| Budget.BudgetViewModel.FetchCategories | MoneyManager/Budget/ViewModel/BudgetViewModel.swift:46-67 | on success, returns and publishes the sorted names; otherwise returns nil and keeps the list |
| Budget.BudgetViewModel.FetchIncome | MoneyManager/Budget/ViewModel/BudgetViewModel.swift:122-145 | on success, returns and publishes the sum of the month's Double income amounts; otherwise returns nil and keeps the total |
| Budget.BudgetViewModel.FetchExpenses | MoneyManager/Budget/ViewModel/BudgetViewModel.swift:163-184 | on success, returns and publishes the sum of the month's Double expense amounts; otherwise returns nil and keeps the total |
| Budget.BudgetViewModel.FetchCategoryTotals | MoneyManager/Budget/ViewModel/BudgetViewModel.swift:95-119 | on success, publishes the category totals of the month's expenses (distinct, complete, correct, sorted by lower-cased name); otherwise keeps them |
| Budget.BudgetViewModel.AddNewCategory | MoneyManager/Budget/ViewModel/BudgetViewModel.swift:240-253 | the list becomes the no-duplicate append; the selection callback fires with the name exactly when it was new |
| Budget.BudgetViewModel.RemoveCategoryLocally | MoneyManager/Budget/ViewModel/BudgetViewModel.swift:278-284 | the list loses the first occurrence of the name, nothing else changes |
| Currency.SortedCurrencies | MoneyManager/Settings/CurrencyView.swift:26-30 | the re-ordered list is a permutation of the list, with the same length |
| Currency.SelectedFirst | MoneyManager/Settings/CurrencyView.swift:27-29 | every entry with the selected symbol comes before every entry without it |
| Currency.GroupsKeepOrder | MoneyManager/Settings/CurrencyView.swift:27-28 | within each group the original relative order is kept |
| Currency.UnmatchedKeepsList | MoneyManager/Settings/CurrencyView.swift:26-30 | when no entry has the symbol, the list is unchanged |
| Currency.InitialSymbol | MoneyManager/Settings/CurrencyView.swift:126 | the user's currency when there is one, "£" otherwise; Currency.DefaultSymbolKeepsList proves that the default leaves the list in order |
| Currency.DefaultSymbolKeepsList | MoneyManager/Settings/CurrencyView.swift:124-126 | a user without a currency gets "£", which no entry has, so the list keeps its declared order |
| Currency.MatchesAtZeroAndThree | MoneyManager/Settings/CurrencyView.swift:27-29 | with matches at positions 0 and 3 and none between them, those two entries come first, in that order |
| Currency.DollarPutsAudThenHkd | MoneyManager/Settings/CurrencyView.swift:13-29 | selecting "$" puts AUD and then HKD first |
| EditProfile.ProfileFormOf | MoneyManager/Settings/EditProfileView.swift:24-31 | the form starts with the user's first name, last name, email and currency, and empty password fields |
| EditProfile.FormIsValid | MoneyManager/Settings/EditProfileView.swift:71-78 | with email, first and last name all filled the form is valid; otherwise it is valid exactly when the new password is empty or at least 6 characters and differs from the current one |
| EditProfile.PasswordsIrrelevantWithBasicInfo | MoneyManager/Settings/EditProfileView.swift:73-77 | with the basic fields filled, any password fields leave the form valid |
| EditProfile.OpeningFormInvalidWithoutBasicInfo | MoneyManager/Settings/EditProfileView.swift:71-78 | a user missing a basic field opens an invalid form, since both password fields start empty and equal |
| EditProfile.ShortNewPasswordInvalid | MoneyManager/Settings/EditProfileView.swift:75 | with a basic field empty, a new password of 1 to 5 characters makes the form invalid |
| EditProfile.CompleteProfileOpensValid | MoneyManager/Settings/EditProfileView.swift:24-31 | a user with all basic fields filled opens a valid form |
| AddExpense.FormIsValid | MoneyManager/Budget/AddExpenseView.swift:116-119 | the form is valid exactly when the name is non-empty and the amount is above 0 |
| AddExpense.NewExpenseForm | MoneyManager/Budget/AddExpenseView.swift:12-19 | the form opens with amount 0, the typed-category input hidden, and month and year indices from today |
| AddExpense.OpeningAmountIsInvalid | MoneyManager/Budget/AddExpenseView.swift:116-119 | with the opening amount of 0 the form is invalid whatever the name |
| AddExpense.SubmittedCategory | MoneyManager/Budget/AddExpenseView.swift:85 | the typed name is submitted when the input is showing, the picked category otherwise; AddExpense.PickedCategoryIsSubmitted proves that the picked one is what the view sends |
| AddExpense.PickedCategoryIsSubmitted | MoneyManager/Budget/AddExpenseView.swift:15 | the input flag starts false and nothing in the view sets it, so the picked category is the one submitted |
| AddExpense.Submission | MoneyManager/Budget/AddExpenseView.swift:78-87 | a submission exists exactly when both indices are in range; it carries month name `months[i]`, year 2023 + index, the name, the amount and the chosen category |
| AddExpense.OpeningYearInRange | MoneyManager/Budget/AddExpenseView.swift:19-22 | the opening year index is valid exactly when the current year is in 2023..2030 |
| AddExpense.OpeningSubmissionPartition | MoneyManager/Budget/AddExpenseView.swift:18-22 | in those years, the opening form submits into today's month and year |
| AddBill.NewBillForm | MoneyManager/Bill/AddBillView.swift:14-22 | the form opens on today with amount 0, empty text fields, no notification, and repeats "Never", which is one of the options |
| AddBill.SplitDate | MoneyManager/Bill/AddBillView.swift:52-56 | day, month name and year all come from the picked date, and the month name maps back to the picked month |
| AddBill.SplitDateRoundTrip | MoneyManager/Bill/AddBillView.swift:52-56 | the parts form a valid date that rebuilds the picked date |
| AddBill.SplitOfDate | MoneyManager/Bill/AddBillView.swift:53-56 | splitting a valid date gives its day, its month's name and its year |
| AddBill.SaveBill | MoneyManager/Bill/AddBillView.swift:51-59 | name, account number, amount, payment link, repeat option and notification pass through unchanged; day, month and year are the split date |
| AddBill.SavedBillIsDueOnPickedDay | MoneyManager/Bill/AddBillView.swift:52-59 | a saved bill is due on exactly the picked day |
| AddBill.SavedBillPartition | MoneyManager/Bill/AddBillView.swift:52-59 | a saved bill lands in the picked date's year and month partition |
| EditBill.ParseBillDate | MoneyManager/Bill/EditBillView.swift:36-39 | the "day monthName year" text parses exactly when the month is recognised, the year is positive and the day exists; the parse is that date |
| EditBill.EditForm | MoneyManager/Bill/EditBillView.swift:27-41 | the form copies name, account number, amount, payment link, repeats and notification, and starts on the parsed date or today |
| EditBill.SaveEdit | MoneyManager/Bill/EditBillView.swift:70-78 | saving keeps the original bill id and sends the form as a new bill would be sent; EditBill.UntouchedSaveKeepsBill proves that an untouched save gives back the bill |
| EditBill.UntouchedSaveKeepsBill | MoneyManager/Bill/EditBillView.swift:36-78 | for a valid bill date, saving without touching the form sends back the bill itself |
| EditBill.UnparsableDateFallsBackToToday | MoneyManager/Bill/EditBillView.swift:39 | an unparsable date opens on today, and saving then moves the bill to today's parts |
| EditBill.DeleteTarget | MoneyManager/Bill/EditBillView.swift:101 | delete targets the bill's id in its stored partition; EditBill.DeleteIgnoresEditedDate proves that the form's date plays no part |
| EditBill.DeleteIgnoresEditedDate | MoneyManager/Bill/EditBillView.swift:101 | changing the picked date does not change what delete targets |

## Left out

- Firestore and FirebaseAuth are not modelled. This covers every read and write and the current user. A read is its snapshot, an input sequence of documents, and a failed read or a missing user is the `reachable` flag.
- The remote side of `addBill`, `editBill`, `deleteBill`, `addIncome`, `addExpense`, `updateIncome`, `updateExpense`, `deleteIncome`, `deleteExpense`, `deleteCategory` and `saveCategory` is not modelled. These send writes to Firestore and then re-run fetches. The model covers the records `addBill` and `editBill` write and that those read back. It does not cover `editBill` writing to the partition of the edited date, where the document may not exist.
- `fetchExpensesForCategory`, `fetchAllIncomesForSelectedMonthAndYear` and `fetchData` are not modelled. They are a remote query on the category field and `Codable` decoding into the `expenses` and `incomes` arrays, which no core property concerns, plus a chain of the modelled fetches.
- async/await, `DispatchQueue.main.async` and `@MainActor` are scheduling only. Each fetch is one atomic step that assigns its fields.
- SwiftUI layout, navigation, styling and pickers are not modelled, including the year picker's `onChange` wiring in `billView.swift`. In `AddExpenseView.swift:96`, `.disabled(!formIsValid)` is attached to the button's label; the model states the validator, not whether the button fires.
- `DateFormatter` and `Calendar` are replaced by a fixed English month table, a proleptic Gregorian calendar with no time zones or DST, and day numbers for dates. `firstWeekday` is a parameter.
- EditBill.ParseBillDate: treats the "dd MMMM yyyy" parse as strict (a real date with year at least 1). The formatter's own leniency and locale are not modelled.
- Double arithmetic is modelled with exact `real` amounts. This includes the balance on the home screen and the "%.2f" formatting. Rounding is not modelled.
- Swift's `sorted` is not documented as stable; the model sorts with a stable insertion sort. The properties proved do not depend on stability.
- Budget.Entries: an iteration order over a Swift dictionary is unspecified, so the order of `map` output is left open. Only the later sort fixes the order.
- Ordering.LexLe: fixes string `<` as comparison by character code, and Ordering.Lower lower-cases ASCII letters only. Unicode collation, full case mapping and grapheme counts are not modelled.
- `homeView`'s `yearString` is not modelled, since it is only `String(currentYear)`. Account data and login (`AuthViewModel`, registration, password reset) are not part of this model.
- The epoch is fixed by the calendar, not an input: day 1 is 1 January of year 1 (Gregorian.EpochDate), and 1 March 2024 is a Friday (Gregorian.March2024).
- Records.DoubleField, Records.IntField and Records.BoolField: the value kinds are disjoint, but Firestore numbers reach Swift as `NSNumber`, which `as? Int`, `as? Double` and `as? Bool` all accept when the value fits exactly. For example, an amount stored as the integer 500 passes `as? Double`. The model drops such a document. The app's own writes always use the matching kinds.
- EditProfile.FormIsValid: measures `newPassword` in characters of `seq<char>`, that is, code points, while Swift's `count` at `EditProfileView.swift:75` counts grapheme clusters. A new password of six code points that make five graphemes (an accented letter written as a letter plus a combining mark) passes in the model and fails in the app.
- AddExpense.Submission: `None` stands for the trap of `years[selectedYearIndex]` at `AddExpenseView.swift:79`. From 2031 on, the opening position is out of range (AddExpense.OpeningYearInRange), and the app stops as soon as the view body is drawn. The model does not represent that crash as a separate outcome.
- BillCalendar.MonthGrid: requires a valid `yearIndex` because `years[selectedYearIndex]` at `billView.swift:70` traps otherwise. From 2034 on, the bills screen stops on opening (BillCalendar.InitialYearIndex), and no grid exists for those years.

## Findings

| source | as written | input that shows it | evidently intended | confidence | as-written member | corrected member |
|---|---|---|---|---|---|---|
| MoneyManager/Bill/ViewModel/BillViewModel.swift:127 | the date is rebuilt with `month: Int(bill.month)`; stored months are names such as "October", so the month is missing and the date falls in January | a bill for 20 October 2026: its rebuilt date is 20 January 2026 | rebuild the date with the month number of the name, as `daysUntilDue` does | not executed | BillStore.LegacyDateIsJanuary | DueDates.DueDateIsCalendarDay |
| MoneyManager/Bill/ViewModel/BillViewModel.swift:128 | the filter keeps `billDate <= today`, although the comment at line 125 says "after or on the current day" | on 14 October 2026, with bills for 20 and 1 October, the shipped list is [1 October, 20 October], the first overdue | keep bills due today or later, soonest two first | not executed | BillStore.OctoberLegacy | BillStore.UpcomingIsSoonestDue |
| MoneyManager/Bill/billView.swift:21 | the header row is `shortWeekdaySymbols`, always Sunday first, while the cells at line 73 are offset from the locale's `firstWeekday` | with Monday first (`firstWeekday` 2), 1 March 2024, a Friday, is in column 4 under "Thu" | rotate the header to begin on `firstWeekday` | not executed | BillCalendar.HeaderMatchesOnlySundayFirst | BillCalendar.RotatedHeaderNamesCellWeekday |
