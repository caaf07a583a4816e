/**
 * The bill view model (Bill/ViewModel/BillViewModel.swift): turning stored
 * documents into bills, the records `addBill` and `editBill` write, the
 * "upcoming bills" selection, and the view-model state those fetches
 * overwrite.
 */
module BillStore {
  import opened Wrappers
  import opened Gregorian
  import opened Ordering
  import opened Records
  import opened BillModel
  import opened DueDates

  // ---------------------------------------------------------------------
  // Documents to bills

  /** The nine bill fields are all present with the types the mapping expects. */
  predicate HasBillFields(d: Document) {
    && StringField(d, "name").Some?
    && DoubleField(d, "amount").Some?
    && IntField(d, "day").Some?
    && StringField(d, "month").Some?
    && IntField(d, "year").Some?
    && StringField(d, "accountNumber").Some?
    && StringField(d, "paymentLink").Some?
    && StringField(d, "billRepeats").Some?
    && BoolField(d, "notification").Some?
  }

  /** The validating mapping of one document: a bill identified by the document ID, or nothing. */
  function ReadBill(d: Document): (r: Option<Bill>)
    ensures r.Some? <==> HasBillFields(d)
    ensures r.Some? ==> r.value.id == d.documentID
  {
    if HasBillFields(d) then
      Some(Bill(d.documentID, StringField(d, "name").value, StringField(d, "accountNumber").value,
        DoubleField(d, "amount").value, IntField(d, "day").value, StringField(d, "month").value,
        IntField(d, "year").value, StringField(d, "paymentLink").value,
        StringField(d, "billRepeats").value, BoolField(d, "notification").value))
    else None
  }

  /** `compactMap` of the mapping: the bills of the documents that map, in snapshot order. */
  function MapBills(docs: seq<Document>): (r: seq<Bill>)
    ensures |r| <= |docs|
    ensures forall i :: 0 <= i < |r| ==> exists j :: 0 <= j < |docs| && ReadBill(docs[j]) == Some(r[i])
  {
    CompactMap(docs, ReadBill)
  }

  /** Mapping distributes over concatenation, so the kept bills stay in snapshot order. */
  lemma MapBillsAppend(a: seq<Document>, b: seq<Document>)
    ensures MapBills(a + b) == MapBills(a) + MapBills(b)
  {
    CompactMapAppend(a, b, ReadBill);
  }

  /** A document with a missing or mistyped field is dropped without disturbing the others. */
  lemma DropsMalformed(a: seq<Document>, d: Document, b: seq<Document>)
    requires !HasBillFields(d)
    ensures MapBills(a + [d] + b) == MapBills(a + b)
  {
    CompactMapDrops(a, d, b, ReadBill);
  }

  /** When every document is well formed, one bill comes out per document, in the same position. */
  lemma MapsAllWellFormed(docs: seq<Document>)
    requires forall i :: 0 <= i < |docs| ==> HasBillFields(docs[i])
    ensures |MapBills(docs)| == |docs|
    ensures forall i :: 0 <= i < |docs| ==> Some(MapBills(docs)[i]) == ReadBill(docs[i])
  {
    CompactMapTotal(docs, ReadBill);
  }

  /** The stored "id" field plays no part: a mapped bill's id is the document ID. */
  lemma ReadIgnoresStoredId(d: Document, v: Value)
    ensures ReadBill(Document(d.documentID, d.data["id" := v])) == ReadBill(d)
  {
    var d' := Document(d.documentID, d.data["id" := v]);
    assert forall k :: k != "id" ==> (k in d.data <==> k in d'.data);
    assert StringField(d', "name") == StringField(d, "name");
    assert StringField(d', "month") == StringField(d, "month");
    assert StringField(d', "accountNumber") == StringField(d, "accountNumber");
    assert StringField(d', "paymentLink") == StringField(d, "paymentLink");
    assert StringField(d', "billRepeats") == StringField(d, "billRepeats");
  }

  // ---------------------------------------------------------------------
  // Records written by addBill and editBill

  /** The arguments `addBill` and `editBill` take besides the ids. */
  datatype BillRequest = BillRequest(
    name: string, accountNumber: string, amount: real, day: int, month: string, year: int,
    paymentLink: string, billRepeats: string, notification: bool)

  /** The bill a request describes, under identifier `id`. */
  function BillOf(id: string, q: BillRequest): Bill {
    Bill(id, q.name, q.accountNumber, q.amount, q.day, q.month, q.year, q.paymentLink, q.billRepeats, q.notification)
  }

  /** The nine bill fields of a request, as `editBill` sends them to `updateData`. */
  function BillFields(q: BillRequest): map<string, Value> {
    map["name" := Text(q.name), "accountNumber" := Text(q.accountNumber), "amount" := Decimal(q.amount),
      "day" := Integer(q.day), "month" := Text(q.month), "year" := Integer(q.year),
      "paymentLink" := Text(q.paymentLink), "billRepeats" := Text(q.billRepeats),
      "notification" := Flag(q.notification)]
  }

  /** The record `addBill` stores: the nine fields plus a fresh "id". */
  function NewBillRecord(newID: string, q: BillRequest): (data: map<string, Value>)
    ensures "id" in data && data["id"] == Text(newID)
  {
    BillFields(q)["id" := Text(newID)]
  }

  /** `updateData`: the nine fields overwrite the stored ones; other fields stay. */
  function UpdatedBillRecord(data: map<string, Value>, q: BillRequest): (data': map<string, Value>)
    ensures forall k :: k in data && k !in BillFields(q) ==> k in data' && data'[k] == data[k]
  {
    data + BillFields(q)
  }

  /** A stored new bill maps back to the request, under the ID the store gives the document. */
  lemma AddedBillReadsBack(docID: string, newID: string, q: BillRequest)
    ensures ReadBill(Document(docID, NewBillRecord(newID, q))) == Some(BillOf(docID, q))
  {
  }

  /** An edited document maps back to the edit, keeping its document ID, whatever it held before. */
  lemma EditedBillReadsBack(d: Document, q: BillRequest)
    ensures ReadBill(Document(d.documentID, UpdatedBillRecord(d.data, q))) == Some(BillOf(d.documentID, q))
  {
  }

  /**
   * `documentSnapshot.data(as: Bill.self)`: the Codable decoding used for the
   * selected bill. It needs the stored "id" field too, and takes the id from it.
   */
  function DecodeBill(d: Document): (r: Option<Bill>)
    ensures r.Some? <==> HasBillFields(d) && StringField(d, "id").Some?
    ensures r.Some? ==> r.value == ReadBill(d).value.(id := StringField(d, "id").value)
  {
    if HasBillFields(d) && StringField(d, "id").Some? then
      Some(ReadBill(d).value.(id := StringField(d, "id").value))
    else None
  }

  /** A bill added by `addBill` decodes with the generated UUID as its id, not the document ID. */
  lemma AddedBillDecodes(docID: string, newID: string, q: BillRequest)
    ensures DecodeBill(Document(docID, NewBillRecord(newID, q))) == Some(BillOf(newID, q))
  {
  }

  // ---------------------------------------------------------------------
  // The upcoming-bills selection

  /**
   * The candidates of the selection: bills whose date key exists and passes
   * the comparison with today.
   */
  function Candidates(bills: seq<Bill>, due: Bill -> Option<int>, keep: int -> bool): (c: seq<Bill>)
    ensures forall i :: 0 <= i < |c| ==> c[i] in bills && due(c[i]).Some? && keep(due(c[i]).value)
    ensures forall i :: 0 <= i < |bills| && due(bills[i]).Some? && keep(due(bills[i]).value) ==> bills[i] in c
  {
    Filter(bills, Qualifies(due, keep))
  }

  /** A bill is a candidate when its date key exists and passes the comparison. */
  function Qualifies(due: Bill -> Option<int>, keep: int -> bool): Bill -> bool {
    b => due(b).Some? && keep(due(b).value)
  }

  /** The comparisons with today: on or before it, and on or after it. */
  function AtMost(today: int): int -> bool {
    d => d <= today
  }

  function AtLeast(today: int): int -> bool {
    d => d >= today
  }

  /** The sort comparator: by date key (keys exist for every candidate). */
  function ByDue(due: Bill -> Option<int>): (Bill, Bill) -> bool {
    (x: Bill, y: Bill) => due(x).GetOr(0) <= due(y).GetOr(0)
  }

  lemma ByDueTotal(due: Bill -> Option<int>)
    ensures TotalPreorder(ByDue(due))
  {
  }

  /**
   * `filter`, then `sorted` by date, then `prefix(2)`, for a date key `due`
   * and a comparison `keep` with today.
   */
  function SelectUpcoming(bills: seq<Bill>, due: Bill -> Option<int>, keep: int -> bool): (r: seq<Bill>)
    ensures var c := Candidates(bills, due, keep); |r| == if |c| < 2 then |c| else 2
    ensures forall i :: 0 <= i < |r| ==> r[i] in bills && due(r[i]).Some? && keep(due(r[i]).value)
    ensures forall i, j :: 0 <= i < j < |r| ==> due(r[i]).value <= due(r[j]).value
    ensures multiset(r) <= multiset(Candidates(bills, due, keep))
    ensures forall b :: b in multiset(Candidates(bills, due, keep)) - multiset(r) ==>
      |r| == 2 && due(r[1]).value <= due(b).value
  {
    SelectionFacts(bills, due, keep);
    Take(SortBy(Candidates(bills, due, keep), ByDue(due)), 2)
  }

  /** Sorting the candidates puts their dates in non-decreasing order. */
  lemma SortedCandidates(bills: seq<Bill>, due: Bill -> Option<int>, keep: int -> bool)
    ensures var s := SortBy(Candidates(bills, due, keep), ByDue(due));
      forall i, j :: 0 <= i < j < |s| ==> due(s[i]).GetOr(0) <= due(s[j]).GetOr(0)
  {
    ByDueTotal(due);
    SortBySorted(Candidates(bills, due, keep), ByDue(due));
  }

  /** Every sorted candidate is a bill of the input whose date passes the comparison. */
  lemma SortedMembers(bills: seq<Bill>, due: Bill -> Option<int>, keep: int -> bool)
    ensures var s := SortBy(Candidates(bills, due, keep), ByDue(due));
      forall i :: 0 <= i < |s| ==> s[i] in bills && due(s[i]).Some? && keep(due(s[i]).value)
  {
    var c := Candidates(bills, due, keep);
    var s := SortBy(c, ByDue(due));
    forall i | 0 <= i < |s| ensures s[i] in bills && due(s[i]).Some? && keep(due(s[i]).value) {
      assert s[i] in multiset(c);
      var k :| 0 <= k < |c| && c[k] == s[i];
    }
  }

  /** A candidate the prefix leaves out is due no earlier than the second bill listed. */
  lemma SelectionComplete(bills: seq<Bill>, due: Bill -> Option<int>, keep: int -> bool)
    ensures var c := Candidates(bills, due, keep);
      var r := Take(SortBy(c, ByDue(due)), 2);
      && multiset(r) <= multiset(c)
      && (forall b :: b in multiset(c) - multiset(r) ==> |r| == 2 && due(r[1]).GetOr(0) <= due(b).GetOr(0))
  {
    var c := Candidates(bills, due, keep);
    var s := SortBy(c, ByDue(due));
    SortedCandidates(bills, due, keep);
    assert SortedBy(s, ByDue(due));
    SortedPrefixBound(s, ByDue(due), 2);
  }

  /** Every candidate has a date. */
  lemma CandidatesDated(bills: seq<Bill>, due: Bill -> Option<int>, keep: int -> bool, b: Bill)
    requires b in multiset(Candidates(bills, due, keep))
    ensures due(b).Some?
  {
    assert b in Candidates(bills, due, keep);
  }

  /** What sorting the candidates gives their two-element prefix. */
  lemma SelectionFacts(bills: seq<Bill>, due: Bill -> Option<int>, keep: int -> bool)
    ensures var c := Candidates(bills, due, keep);
      var r := Take(SortBy(c, ByDue(due)), 2);
      && (forall i :: 0 <= i < |r| ==> r[i] in bills && due(r[i]).Some? && keep(due(r[i]).value))
      && (forall i, j :: 0 <= i < j < |r| ==> due(r[i]).value <= due(r[j]).value)
      && multiset(r) <= multiset(c)
      && (forall b :: b in multiset(c) - multiset(r) ==> |r| == 2 && due(r[1]).value <= due(b).value)
  {
    SortedMembers(bills, due, keep);
    SelectionOrdered(bills, due, keep);
    SelectionLeavesLater(bills, due, keep);
  }

  /** The two bills listed are in date order. */
  lemma SelectionOrdered(bills: seq<Bill>, due: Bill -> Option<int>, keep: int -> bool)
    ensures var r := Take(SortBy(Candidates(bills, due, keep), ByDue(due)), 2);
      && (forall i :: 0 <= i < |r| ==> due(r[i]).Some?)
      && (forall i, j :: 0 <= i < j < |r| ==> due(r[i]).value <= due(r[j]).value)
  {
    SortedMembers(bills, due, keep);
    SortedCandidates(bills, due, keep);
  }

  /** The completeness of `SelectionComplete`, on the dates themselves. */
  lemma SelectionLeavesLater(bills: seq<Bill>, due: Bill -> Option<int>, keep: int -> bool)
    ensures var c := Candidates(bills, due, keep);
      var r := Take(SortBy(c, ByDue(due)), 2);
      && multiset(r) <= multiset(c)
      && (forall b :: b in multiset(c) - multiset(r) ==>
            |r| == 2 && due(r[1]).Some? && due(b).Some? && due(r[1]).value <= due(b).value)
  {
    var c := Candidates(bills, due, keep);
    SortedMembers(bills, due, keep);
    SelectionComplete(bills, due, keep);
    forall b | b in multiset(c) - multiset(Take(SortBy(c, ByDue(due)), 2)) ensures due(b).Some? {
      CandidatesDated(bills, due, keep, b);
    }
  }

  /**
   * Swift's `Int(String)`: an optional sign and one or more decimal digits,
   * within the 64-bit range; anything else yields nothing.
   */
  function ParseInt(s: string): (r: Option<int>)
    ensures r.Some? ==> s != [] && (s[0] == '+' || s[0] == '-' || '0' <= s[0] <= '9')
  {
    var signed := s != [] && (s[0] == '+' || s[0] == '-');
    var sign := if signed && s[0] == '-' then -1 else 1;
    var digits := if signed then s[1..] else s;
    if digits != [] && AllDigits(digits) then
      var v := sign * DigitsValue(digits);
      if -0x8000_0000_0000_0000 <= v <= 0x7fff_ffff_ffff_ffff then Some(v) else None
    else None
  }

  predicate AllDigits(s: string) {
    forall i :: 0 <= i < |s| ==> '0' <= s[i] <= '9'
  }

  /** The value of a string of decimal digits. */
  function DigitsValue(s: string): (v: nat)
    requires AllDigits(s)
    decreases |s|
  {
    if s == [] then 0 else 10 * DigitsValue(s[..|s| - 1]) + (s[|s| - 1] as int - '0' as int)
  }

  /** No month name reads as an integer. */
  lemma MonthNamesAreNotNumbers(m: int)
    requires 1 <= m <= 12
    ensures ParseInt(MonthName(m)) == None
  {
    assert 'A' <= MonthName(m)[0] <= 'Z';
  }

  /**
   * The date the shipped selection builds: `DateComponents(year:, month: Int(bill.month), day:)`.
   * A month that does not parse as an integer is left out, and the calendar then takes January.
   */
  function LegacyDueDate(b: Bill): (r: Option<int>)
    ensures r.Some?
    ensures r.value == Date(b.year, ParseInt(b.month).GetOr(1), b.day)
  {
    Some(Date(b.year, ParseInt(b.month).GetOr(1), b.day))
  }

  /** For every month name the shipped date falls in January of the bill's year. */
  lemma LegacyMonthIsJanuary(b: Bill)
    requires b.month in Months
    ensures LegacyDueDate(b).value == Date(b.year, 1, b.day)
  {
    var m := MonthNumber(b.month).value;
    MonthNamesAreNotNumbers(m);
  }

  /** The shipped selection: dates from `LegacyDueDate`, kept when on or before today. */
  function LegacyUpcoming(bills: seq<Bill>, today: int): (r: seq<Bill>)
    ensures |r| <= 2
    ensures forall i :: 0 <= i < |r| ==> r[i] in bills && LegacyDueDate(r[i]).value <= today
  {
    SelectUpcoming(bills, LegacyDueDate, AtMost(today))
  }

  /** The selection the code comment describes: real due dates, kept when on or after today. */
  function Upcoming(bills: seq<Bill>, today: int): (r: seq<Bill>)
    ensures |r| <= 2
    ensures forall i :: 0 <= i < |r| ==> r[i] in bills && DueDate(r[i]).Some? && DueDate(r[i]).value >= today
  {
    SelectUpcoming(bills, DueDate, AtLeast(today))
  }

  /** For a named month other than January, the shipped date is earlier than the real due date. */
  lemma LegacyDateIsJanuary(b: Bill)
    requires b.month in Months && b.month != "January"
    ensures DueDate(b).Some?
    ensures LegacyDueDate(b).value < DueDate(b).value
  {
    var m := MonthNumber(b.month).value;
    assert m != 1 by { assert MonthName(1) == "January"; }
    LegacyMonthIsJanuary(b);
    DueDateOfNamedMonth(b, m);
    LaterMonthIsLater(b.year, m, b.day);
  }

  /**
   * The corrected selection lists at most two bills, none overdue, the soonest
   * first, and leaves out no recognised, not yet overdue bill due earlier than the last listed.
   */
  lemma UpcomingIsSoonestDue(bills: seq<Bill>, today: int)
    ensures |Upcoming(bills, today)| <= 2
    ensures forall b :: b in Upcoming(bills, today) ==> b in bills && DaysUntilDue(b, today).Some? && DaysUntilDue(b, today).value >= 0
    ensures forall b :: b in bills && DaysUntilDue(b, today).Some? && DaysUntilDue(b, today).value >= 0 && b !in Upcoming(bills, today) ==>
      |Upcoming(bills, today)| == 2 && DaysUntilDue(Upcoming(bills, today)[1], today).value <= DaysUntilDue(b, today).value
  {
    var r := Upcoming(bills, today);
    forall b | b in bills && DaysUntilDue(b, today).Some? && DaysUntilDue(b, today).value >= 0 && b !in r
      ensures |r| == 2 && DaysUntilDue(r[1], today).value <= DaysUntilDue(b, today).value
    {
      UpcomingLeftOut(bills, today, b);
    }
  }

  /** A bill due today or later that the corrected selection leaves out is due no sooner than its second bill. */
  lemma UpcomingLeftOut(bills: seq<Bill>, today: int, b: Bill)
    requires b in bills && DueDate(b).Some? && DueDate(b).value >= today && b !in Upcoming(bills, today)
    ensures |Upcoming(bills, today)| == 2 && DueDate(Upcoming(bills, today)[1]).value <= DueDate(b).value
  {
    var r := Upcoming(bills, today);
    var c := Candidates(bills, DueDate, AtLeast(today));
    var i :| 0 <= i < |bills| && bills[i] == b;
    assert AtLeast(today)(DueDate(bills[i]).value);
    assert b in c;
    assert b in multiset(c) - multiset(r);
  }

  /** The shipped selection never leaves out a bill while showing one with a later built date. */
  lemma LegacyShape(bills: seq<Bill>, today: int)
    ensures |LegacyUpcoming(bills, today)| <= 2
    ensures forall b :: b in LegacyUpcoming(bills, today) ==> b in bills && LegacyDueDate(b).value <= today
    ensures var r := LegacyUpcoming(bills, today);
      forall i, j :: 0 <= i < j < |r| ==> LegacyDueDate(r[i]).value <= LegacyDueDate(r[j]).value
  {
  }

  /** Two October 2026 bills: one due on the 20th, one on the 1st. */
  const RentBill := Bill("a", "Rent", "", 500.0, 20, "October", 2026, "", "Monthly", false)
  const PhoneBill := Bill("b", "Phone", "", 20.0, 1, "October", 2026, "", "Monthly", false)

  /** The dates both selections compute for the two October bills, against 14 October. */
  lemma OctoberDueDates()
    ensures DueDate(RentBill) == Some(Date(2026, 10, 14) + 6)
    ensures DueDate(PhoneBill) == Some(Date(2026, 10, 14) - 13)
  {
    assert MonthName(10) == "October";
    DueDateOfNamedMonth(RentBill, 10);
    DueDateOfNamedMonth(PhoneBill, 10);
    DaysApart(2026, 10, 20, 14);
    DaysApart(2026, 10, 1, 14);
  }

  /** Two days of the same month lie as many days apart as their day components. */
  lemma DaysApart(y: int, m: int, d1: int, d2: int)
    requires 1 <= m <= 12
    ensures Date(y, m, d1) == Date(y, m, d2) + (d1 - d2)
  {
    DateInYear(y, m, d1);
    DateInYear(y, m, d2);
  }

  lemma OctoberLegacyDates()
    ensures LegacyDueDate(PhoneBill).value < LegacyDueDate(RentBill).value < Date(2026, 10, 14)
  {
    assert MonthName(10) == "October";
    LegacyMonthIsJanuary(RentBill);
    LegacyMonthIsJanuary(PhoneBill);
    DateInYear(2026, 10, 14);
    DateInYear(2026, 1, 20);
    DateInYear(2026, 1, 1);
  }

  /**
   * On 14 October 2026 the shipped selection lists both bills, the overdue
   * one first, because both dates fall in January.
   */
  lemma OctoberLegacy()
    ensures LegacyUpcoming([RentBill, PhoneBill], Date(2026, 10, 14)) == [PhoneBill, RentBill]
  {
    OctoberLegacyDates();
    BothBeforeToday(Date(2026, 10, 14));
  }

  /** When both shipped dates precede `today`, the shipped selection lists both, earlier date first. */
  lemma BothBeforeToday(today: int)
    requires LegacyDueDate(PhoneBill).value < LegacyDueDate(RentBill).value < today
    ensures LegacyUpcoming([RentBill, PhoneBill], today) == [PhoneBill, RentBill]
  {
    var bills := [RentBill, PhoneBill];
    assert Candidates(bills, LegacyDueDate, AtMost(today)) == bills by {
      FilterAll(bills, Qualifies(LegacyDueDate, AtMost(today)));
    }
    assert SortBy(bills, ByDue(LegacyDueDate)) == [PhoneBill, RentBill] by {
      SortPair(RentBill, PhoneBill, ByDue(LegacyDueDate));
    }
  }

  /** On 14 October 2026 the corrected selection lists only the bill due on the 20th. */
  lemma OctoberCorrected()
    ensures Upcoming([RentBill, PhoneBill], Date(2026, 10, 14)) == [RentBill]
  {
    var bills := [RentBill, PhoneBill];
    var today := Date(2026, 10, 14);
    OctoberDueDates();
    assert bills[1..] == [PhoneBill];
    FilterNone([PhoneBill], Qualifies(DueDate, AtLeast(today)));
    assert Candidates(bills, DueDate, AtLeast(today)) == [RentBill];
  }

  // ---------------------------------------------------------------------
  // The view model

  /**
   * The published state of the bill screens. Each fetch reads the store once
   * and overwrites its field; `reachable` is false when no user is signed in
   * or the read fails, and then the field is left as it was.
   */
  class BillViewModel {
    var selectedBill: Option<Bill>
    var upcomingBills: seq<Bill>
    var monthlyBills: seq<Bill>

    constructor ()
      ensures selectedBill == None && upcomingBills == [] && monthlyBills == []
    {
      selectedBill := None;
      upcomingBills := [];
      monthlyBills := [];
    }

    /** `fetchUpcomingBills`: the shipped selection over the current month's collection only. */
    method FetchUpcomingBills(store: Store, reachable: bool, today: int)
      modifies this
      ensures reachable ==> upcomingBills == LegacyUpcoming(MapBills(Collection(store, PartitionOf(today))), today)
      ensures !reachable ==> upcomingBills == old(upcomingBills)
      ensures monthlyBills == old(monthlyBills) && selectedBill == old(selectedBill)
    {
      if reachable {
        var bills := MapBills(Collection(store, PartitionOf(today)));
        upcomingBills := LegacyUpcoming(bills, today);
      }
    }

    /**
     * `fetchBillsForMonth`: replaces the month's bills wholesale, then refreshes
     * the upcoming bills. The two reads succeed or fail independently: the
     * nested `fetchUpcomingBills` has its own guard and its own error handler,
     * so `upcomingReachable` may be false while `monthReachable` is true.
     */
    method FetchBillsForMonth(store: Store, monthReachable: bool, upcomingReachable: bool,
                              year: int, month: string, today: int)
      modifies this
      ensures monthReachable ==> monthlyBills == MapBills(Collection(store, Partition(year, month)))
      ensures !monthReachable ==> monthlyBills == old(monthlyBills)
      ensures monthReachable && upcomingReachable ==>
        upcomingBills == LegacyUpcoming(MapBills(Collection(store, PartitionOf(today))), today)
      ensures !(monthReachable && upcomingReachable) ==> upcomingBills == old(upcomingBills)
      ensures selectedBill == old(selectedBill)
    {
      if monthReachable {
        monthlyBills := MapBills(Collection(store, Partition(year, month)));
        FetchUpcomingBills(store, upcomingReachable, today);
      }
    }

    /**
     * `fetchSelectedBill`: the document with ID `id` in the (year, month)
     * collection, decoded; a missing document or a failed decoding leaves the
     * selection as it was.
     */
    method FetchSelectedBill(store: Store, reachable: bool, id: string, year: int, month: string)
      modifies this
      ensures var docs := Collection(store, Partition(year, month));
        var found := FindDocument(docs, id);
        selectedBill == if reachable && found.Some? && DecodeBill(found.value).Some?
          then DecodeBill(found.value) else old(selectedBill)
      ensures monthlyBills == old(monthlyBills) && upcomingBills == old(upcomingBills)
    {
      if reachable {
        var found := FindDocument(Collection(store, Partition(year, month)), id);
        if found.Some? && DecodeBill(found.value).Some? {
          selectedBill := DecodeBill(found.value);
        }
      }
    }
  }

  /** The document of a collection with a given ID, if there is one. */
  function FindDocument(docs: seq<Document>, id: string): (r: Option<Document>)
    ensures r.Some? ==> r.value in docs && r.value.documentID == id
    ensures r.None? ==> forall i :: 0 <= i < |docs| ==> docs[i].documentID != id
    decreases |docs|
  {
    if docs == [] then None
    else if docs[0].documentID == id then Some(docs[0])
    else FindDocument(docs[1..], id)
  }

  /** The upcoming bills come from the collection of today's month and year and nowhere else. */
  lemma UpcomingFromCurrentMonth(store: Store, today: int)
    ensures var docs := Collection(store, PartitionOf(today));
      forall b :: b in LegacyUpcoming(MapBills(docs), today) ==>
        exists j :: 0 <= j < |docs| && ReadBill(docs[j]) == Some(b)
  {
  }
}
