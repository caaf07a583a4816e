/**
 * The budget view model (Budget/ViewModel/BudgetViewModel.swift): the income
 * and expense totals of a month, the per-category expense totals, the
 * category list and its local updates.
 */
module Budget {
  import opened Wrappers
  import opened Ordering
  import opened Records

  // ---------------------------------------------------------------------
  // Sums

  /** A document's contribution to a total: its "amount" when that is a Double, else nothing. */
  function AmountOf(d: Document): real {
    match DoubleField(d, "amount")
    case Some(a) => a
    case None => 0.0
  }

  /** The sum of the Double amounts of `docs`, the others skipped. */
  function AmountSum(docs: seq<Document>): real
    decreases |docs|
  {
    if docs == [] then 0.0 else AmountSum(docs[..|docs| - 1]) + AmountOf(docs[|docs| - 1])
  }

  /** Appending one document adds its contribution. */
  lemma AmountSumSnoc(s: seq<Document>, d: Document)
    ensures AmountSum(s + [d]) == AmountSum(s) + AmountOf(d)
  {
    assert (s + [d])[..|s|] == s;
  }

  /** Sums split over concatenation: each snapshot adds its own amounts. */
  lemma {:induction false} AmountSumAppend(a: seq<Document>, b: seq<Document>)
    ensures AmountSum(a + b) == AmountSum(a) + AmountSum(b)
    decreases |b|
  {
    if b == [] {
      assert a + b == a;
    } else {
      var b', z := b[..|b| - 1], b[|b| - 1];
      assert b == b' + [z];
      assert a + b == (a + b') + [z];
      AmountSumAppend(a, b');
      AmountSumSnoc(a + b', z);
      AmountSumSnoc(b', z);
    }
  }

  /** A document without a Double amount leaves the sum unchanged wherever it sits. */
  lemma SkipsMalformedAmount(a: seq<Document>, d: Document, b: seq<Document>)
    requires DoubleField(d, "amount").None?
    ensures AmountSum(a + [d] + b) == AmountSum(a + b)
  {
    AmountSumAppend(a + [d], b);
    AmountSumAppend(a, [d]);
    AmountSumAppend(a, b);
    assert [d][..0] == [];
  }

  /** The running total of the income and expense loops. */
  method TotalAmount(docs: seq<Document>) returns (total: real)
    ensures total == AmountSum(docs)
  {
    total := 0.0;
    var i := 0;
    while i < |docs|
      invariant 0 <= i <= |docs|
      invariant total == AmountSum(docs[..i])
    {
      if DoubleField(docs[i], "amount").Some? {
        total := total + DoubleField(docs[i], "amount").value;
      }
      assert docs[..i + 1][..i] == docs[..i];
      i := i + 1;
    }
    assert docs[..i] == docs;
  }

  // ---------------------------------------------------------------------
  // Category totals

  /** The (category, amount) a document files under, when both have the expected types. */
  function Entry(d: Document): Option<(string, real)> {
    if StringField(d, "category").Some? && DoubleField(d, "amount").Some? then
      Some((StringField(d, "category").value, DoubleField(d, "amount").value))
    else None
  }

  /** The categories that occur among the well-formed documents. */
  function Categories(docs: seq<Document>): set<string>
    decreases |docs|
  {
    if docs == [] then {}
    else
      var rest := Categories(docs[..|docs| - 1]);
      match Entry(docs[|docs| - 1])
      case Some(e) => rest + {e.0}
      case None => rest
  }

  /** The total of the well-formed documents filed under category `c`. */
  function CategorySum(docs: seq<Document>, c: string): real
    decreases |docs|
  {
    if docs == [] then 0.0
    else
      var rest := CategorySum(docs[..|docs| - 1], c);
      match Entry(docs[|docs| - 1])
      case Some(e) => if e.0 == c then rest + e.1 else rest
      case None => rest
  }

  /** A category that never occurs totals to nothing. */
  lemma {:induction false} AbsentCategorySum(docs: seq<Document>, c: string)
    requires c !in Categories(docs)
    ensures CategorySum(docs, c) == 0.0
    decreases |docs|
  {
    if docs != [] {
      AbsentCategorySum(docs[..|docs| - 1], c);
    }
  }

  /** The documents filed under category `c`. */
  function FiledUnder(c: string): Document -> bool {
    d => Entry(d).Some? && Entry(d).value.0 == c
  }

  /** A category's total is the amount total of exactly the documents filed under it. */
  lemma {:induction false} CategorySumIsFilteredSum(docs: seq<Document>, c: string)
    ensures CategorySum(docs, c) == AmountSum(Filter(docs, FiledUnder(c)))
    decreases |docs|
  {
    if docs != [] {
      var init, last := docs[..|docs| - 1], docs[|docs| - 1];
      assert docs == init + [last];
      CategorySumIsFilteredSum(init, c);
      FilterAppend(init, [last], FiledUnder(c));
      AmountSumAppend(Filter(init, FiledUnder(c)), Filter([last], FiledUnder(c)));
      FilteredSingle(last, c);
      CategorySumSnoc(init, last, c);
    }
  }

  lemma CategorySumSnoc(s: seq<Document>, d: Document, c: string)
    ensures CategorySum(s + [d], c) ==
      CategorySum(s, c) + if Entry(d).Some? && Entry(d).value.0 == c then Entry(d).value.1 else 0.0
  {
    assert (s + [d])[..|s|] == s;
  }

  lemma FilteredSingle(d: Document, c: string)
    ensures AmountSum(Filter([d], FiledUnder(c))) ==
      if Entry(d).Some? && Entry(d).value.0 == c then Entry(d).value.1 else 0.0
  {
    assert [d][1..] == [];
    AmountSumSnoc([], d);
    assert [] + [d] == [d];
  }

  /** A document lacking a string category or a Double amount adds no category and changes no total. */
  lemma SkipsMalformedEntry(docs: seq<Document>, d: Document, c: string)
    requires Entry(d).None?
    ensures Categories(docs + [d]) == Categories(docs)
    ensures CategorySum(docs + [d], c) == CategorySum(docs, c)
  {
    assert (docs + [d])[..|docs|] == docs;
  }

  /** One entry of the published category list. */
  datatype CategoryTotal = CategoryTotal(name: string, total: real)

  /**
   * The dictionary loop: `categoryTotalsDict[category, default: 0] += amount`
   * for every well-formed document.
   */
  method GroupByCategory(docs: seq<Document>) returns (totals: map<string, real>)
    ensures totals.Keys == Categories(docs)
    ensures forall c :: c in totals ==> totals[c] == CategorySum(docs, c)
  {
    totals := map[];
    var i := 0;
    while i < |docs|
      invariant 0 <= i <= |docs|
      invariant totals.Keys == Categories(docs[..i])
      invariant forall c :: c in totals ==> totals[c] == CategorySum(docs[..i], c)
    {
      assert docs[..i + 1][..i] == docs[..i];
      var e := Entry(docs[i]);
      if e.Some? {
        var (c, a) := e.value;
        if c !in totals {
          AbsentCategorySum(docs[..i], c);
        }
        totals := totals[c := (if c in totals then totals[c] else 0.0) + a];
      }
      i := i + 1;
    }
    assert docs[..i] == docs;
  }

  /** The names of a category list, in order. */
  function Names(r: seq<CategoryTotal>): (names: seq<string>)
    ensures |names| == |r|
    ensures forall i :: 0 <= i < |r| ==> names[i] == r[i].name
  {
    seq(|r|, i requires 0 <= i < |r| => r[i].name)
  }

  /** The dictionary's entries as a list, in an order the dictionary does not specify. */
  method Entries(totals: map<string, real>) returns (r: seq<CategoryTotal>)
    ensures forall i, j :: 0 <= i < j < |r| ==> r[i].name != r[j].name
    ensures forall i :: 0 <= i < |r| ==> r[i].name in totals && r[i].total == totals[r[i].name]
    ensures forall c :: c in totals ==> exists i :: 0 <= i < |r| && r[i].name == c
  {
    r := [];
    var rest := totals.Keys;
    while rest != {}
      invariant rest <= totals.Keys
      invariant forall i, j :: 0 <= i < j < |r| ==> r[i].name != r[j].name
      invariant forall i :: 0 <= i < |r| ==> r[i].name in totals && r[i].name !in rest && r[i].total == totals[r[i].name]
      invariant forall c :: c in totals && c !in rest ==> exists i :: 0 <= i < |r| && r[i].name == c
      decreases rest
    {
      var c :| c in rest;
      var r0 := r;
      r := r + [CategoryTotal(c, totals[c])];
      forall c' | c' in totals && c' !in rest - {c} ensures exists i :: 0 <= i < |r| && r[i].name == c' {
        if c' == c {
          assert r[|r| - 1].name == c';
        } else {
          var i :| 0 <= i < |r0| && r0[i].name == c';
          assert r[i] == r0[i];
        }
      }
      rest := rest - {c};
    }
  }

  /** The sort comparator: names compared after lower-casing. */
  function LowerName(t: CategoryTotal): string {
    Lower(t.name)
  }

  /**
   * `fetchCategoryTotals` on one snapshot: one entry per category, its total
   * the sum of that category's amounts, sorted by lower-cased name.
   */
  method CategoryTotals(docs: seq<Document>) returns (r: seq<CategoryTotal>)
    ensures forall i, j :: 0 <= i < j < |r| ==> r[i].name != r[j].name
    ensures forall i :: 0 <= i < |r| ==> r[i].name in Categories(docs) && r[i].total == CategorySum(docs, r[i].name)
    ensures forall c :: c in Categories(docs) ==> exists i :: 0 <= i < |r| && r[i].name == c
    ensures forall i, j :: 0 <= i < j < |r| ==> LexLe(Lower(r[i].name), Lower(r[j].name))
  {
    var totals := GroupByCategory(docs);
    var entries := Entries(totals);
    r := SortBy(entries, ByLexKey(LowerName));
    CategoryTotalsFacts(docs, totals, entries);
  }

  /** What sorting the dictionary's entries gives `CategoryTotals`. */
  lemma CategoryTotalsFacts(docs: seq<Document>, totals: map<string, real>, entries: seq<CategoryTotal>)
    requires totals.Keys == Categories(docs)
    requires forall c :: c in totals ==> totals[c] == CategorySum(docs, c)
    requires forall i, j :: 0 <= i < j < |entries| ==> entries[i].name != entries[j].name
    requires forall i :: 0 <= i < |entries| ==> entries[i].name in totals && entries[i].total == totals[entries[i].name]
    requires forall c :: c in totals ==> exists i :: 0 <= i < |entries| && entries[i].name == c
    ensures var r := SortBy(entries, ByLexKey(LowerName));
      && (forall i, j :: 0 <= i < j < |r| ==> r[i].name != r[j].name)
      && (forall i :: 0 <= i < |r| ==> r[i].name in Categories(docs) && r[i].total == CategorySum(docs, r[i].name))
      && (forall c :: c in Categories(docs) ==> exists i :: 0 <= i < |r| && r[i].name == c)
      && (forall i, j :: 0 <= i < j < |r| ==> LexLe(Lower(r[i].name), Lower(r[j].name)))
  {
    var r := SortBy(entries, ByLexKey(LowerName));
    SortedByLowerName(entries);
    SameEntries(entries, r);
    Regrouped(docs, totals, entries, r);
  }

  lemma SortedByLowerName(entries: seq<CategoryTotal>)
    ensures var r := SortBy(entries, ByLexKey(LowerName));
      forall i, j :: 0 <= i < j < |r| ==> LexLe(Lower(r[i].name), Lower(r[j].name))
  {
    var r := SortBy(entries, ByLexKey(LowerName));
    ByLexKeyTotal(LowerName);
    SortBySorted(entries, ByLexKey(LowerName));
    forall i, j | 0 <= i < j < |r| ensures LexLe(Lower(r[i].name), Lower(r[j].name)) {
      assert ByLexKey(LowerName)(r[i], r[j]);
      assert LowerName(r[i]) == Lower(r[i].name) && LowerName(r[j]) == Lower(r[j].name);
    }
  }

  /** The sorted list carries the dictionary's entries, so the totals of the snapshot. */
  lemma Regrouped(docs: seq<Document>, totals: map<string, real>, entries: seq<CategoryTotal>, r: seq<CategoryTotal>)
    requires totals.Keys == Categories(docs)
    requires forall c :: c in totals ==> totals[c] == CategorySum(docs, c)
    requires forall i :: 0 <= i < |entries| ==> entries[i].name in totals && entries[i].total == totals[entries[i].name]
    requires forall c :: c in totals ==> exists i :: 0 <= i < |entries| && entries[i].name == c
    requires forall x :: x in r <==> x in entries
    ensures forall i :: 0 <= i < |r| ==> r[i].name in Categories(docs) && r[i].total == CategorySum(docs, r[i].name)
    ensures forall c :: c in Categories(docs) ==> exists i :: 0 <= i < |r| && r[i].name == c
  {
    forall i | 0 <= i < |r| ensures r[i].name in Categories(docs) && r[i].total == CategorySum(docs, r[i].name) {
      assert r[i] in entries;
    }
    forall c | c in Categories(docs) ensures exists i :: 0 <= i < |r| && r[i].name == c {
      var k :| 0 <= k < |entries| && entries[k].name == c;
      assert entries[k] in r;
    }
  }

  /** A permutation of a list of entries keeps its entries and its distinct names. */
  lemma SameEntries(s: seq<CategoryTotal>, r: seq<CategoryTotal>)
    requires multiset(r) == multiset(s)
    requires forall i, j :: 0 <= i < j < |s| ==> s[i].name != s[j].name
    ensures forall x :: x in r <==> x in s
    ensures forall i, j :: 0 <= i < j < |r| ==> r[i].name != r[j].name
  {
    forall x ensures x in r <==> x in s {
      assert x in r <==> x in multiset(r);
      assert x in s <==> x in multiset(s);
    }
    DistinctPermutation(s, r);
    forall i, j | 0 <= i < j < |r| ensures r[i].name != r[j].name {
      assert r[i] in s && r[j] in s;
      var a :| 0 <= a < |s| && s[a] == r[i];
      var b :| 0 <= b < |s| && s[b] == r[j];
      assert a != b;
      if a < b {
        assert s[a].name != s[b].name;
      } else {
        assert s[b].name != s[a].name;
      }
    }
  }

  // ---------------------------------------------------------------------
  // Category names

  /** A category document's name, when it is a string. */
  function NameOf(d: Document): Option<string> {
    StringField(d, "name")
  }

  /** `fetchCategories`: the string names, the other documents dropped, in ascending order. */
  function SortedCategoryNames(docs: seq<Document>): (r: seq<string>)
    ensures multiset(r) == multiset(CompactMap(docs, NameOf))
    ensures forall i, j :: 0 <= i < j < |r| ==> LexLe(r[i], r[j])
  {
    LexLeTotalPreorder();
    SortBySorted(CompactMap(docs, NameOf), LexLe);
    SortBy(CompactMap(docs, NameOf), LexLe)
  }

  /** A name lands in the list exactly when some category document carries it. */
  lemma CategoryNameListed(docs: seq<Document>, name: string)
    ensures name in SortedCategoryNames(docs) <==> exists j :: 0 <= j < |docs| && NameOf(docs[j]) == Some(name)
  {
    var r := SortedCategoryNames(docs);
    assert name in r <==> name in multiset(r);
    assert name in CompactMap(docs, NameOf) <==> name in multiset(CompactMap(docs, NameOf));
    CompactMapMember(docs, NameOf, name);
  }

  // ---------------------------------------------------------------------
  // Local updates of the category list

  /** The list after adding `c` unless it is already present. */
  function AddUnique(cats: seq<string>, c: string): (r: seq<string>)
    ensures c in r
    ensures forall x :: x in r <==> x in cats || x == c
    ensures |cats| <= |r| <= |cats| + 1 && r[..|cats|] == cats
    ensures c in cats ==> r == cats
  {
    if c in cats then cats else cats + [c]
  }

  /** Adding never introduces a duplicate. */
  lemma AddUniqueKeepsDistinct(cats: seq<string>, c: string)
    requires forall i, j :: 0 <= i < j < |cats| ==> cats[i] != cats[j]
    ensures var r := AddUnique(cats, c); forall i, j :: 0 <= i < j < |r| ==> r[i] != r[j]
  {
  }

  /** Adding the same name twice is adding it once. */
  lemma AddUniqueIdempotent(cats: seq<string>, c: string)
    ensures AddUnique(AddUnique(cats, c), c) == AddUnique(cats, c)
  {
  }

  /** `firstIndex(of:)`. */
  function FirstIndex(s: seq<string>, x: string): (r: Option<nat>)
    ensures r.Some? ==> r.value < |s| && s[r.value] == x && x !in s[..r.value]
    ensures r.None? <==> x !in s
    decreases |s|
  {
    if s == [] then None
    else if s[0] == x then Some(0)
    else
      match FirstIndex(s[1..], x)
      case None => None
      case Some(i) =>
        assert s[..i + 1] == [s[0]] + s[1..][..i];
        Some(i + 1)
  }

  /** `firstIndex(of:)` then `remove(at:)`: the first occurrence goes, nothing else moves. */
  function RemoveFirst(s: seq<string>, x: string): (r: seq<string>)
    ensures x !in s ==> r == s
    ensures x in s ==> |r| == |s| - 1 && multiset(r) == multiset(s) - multiset{x}
    ensures x in s ==> exists i :: 0 <= i < |s| && s[i] == x && x !in s[..i] && r == s[..i] + s[i + 1..]
  {
    match FirstIndex(s, x)
    case None => s
    case Some(i) =>
      assert s == s[..i] + [s[i]] + s[i + 1..];
      s[..i] + s[i + 1..]
  }

  /** After removal from a duplicate-free list the name is gone and every other name stays. */
  lemma RemoveFirstFromDistinct(s: seq<string>, x: string)
    requires Distinct(s)
    ensures x !in RemoveFirst(s, x)
    ensures forall y :: y != x ==> (y in RemoveFirst(s, x) <==> y in s)
  {
    var r := RemoveFirst(s, x);
    if x in s {
      DistinctCount(s);
      assert multiset(r)[x] == 0;
      forall y | y != x ensures y in r <==> y in s {
        assert multiset(r)[y] == multiset(s)[y];
      }
    }
  }

  /** Adding a new name and then removing it gives back the list. */
  lemma RemoveUndoesAdd(cats: seq<string>, c: string)
    requires c !in cats
    ensures RemoveFirst(AddUnique(cats, c), c) == cats
  {
    var r := cats + [c];
    assert FirstIndex(r, c) == Some(|cats|) by {
      assert r[..|cats|] == cats;
    }
    assert r[..|cats|] == cats;
  }

  // ---------------------------------------------------------------------
  // The view model

  /**
   * The published budget state. Remote reads are a store per kind of record
   * plus the category documents; `reachable` is false when no user is signed
   * in or the read fails.
   */
  class BudgetViewModel {
    var categories: seq<string>
    var totalIncome: real
    var totalExpense: real
    var categoryTotals: seq<CategoryTotal>

    constructor ()
      ensures categories == [] && totalIncome == 0.0 && totalExpense == 0.0 && categoryTotals == []
    {
      categories := [];
      totalIncome := 0.0;
      totalExpense := 0.0;
      categoryTotals := [];
    }

    /** `fetchCategories`: publishes and returns the sorted names, or nothing when unreachable. */
    method FetchCategories(categoryDocs: seq<Document>, reachable: bool) returns (r: Option<seq<string>>)
      modifies this
      ensures reachable ==> r == Some(SortedCategoryNames(categoryDocs)) && categories == r.value
      ensures !reachable ==> r == None && categories == old(categories)
      ensures totalIncome == old(totalIncome) && totalExpense == old(totalExpense)
      ensures categoryTotals == old(categoryTotals)
    {
      if reachable {
        var names := SortedCategoryNames(categoryDocs);
        categories := names;
        r := Some(names);
      } else {
        r := None;
      }
    }

    /** `fetchIncome`: the month's income total, published and returned. */
    method FetchIncome(income: Store, reachable: bool, month: string, year: int) returns (r: Option<real>)
      modifies this
      ensures reachable ==> r == Some(AmountSum(Collection(income, Partition(year, month)))) && totalIncome == r.value
      ensures !reachable ==> r == None && totalIncome == old(totalIncome)
      ensures categories == old(categories) && totalExpense == old(totalExpense)
      ensures categoryTotals == old(categoryTotals)
    {
      if reachable {
        var total := TotalAmount(Collection(income, Partition(year, month)));
        totalIncome := total;
        r := Some(total);
      } else {
        r := None;
      }
    }

    /** `fetchExpenses`: the month's expense total, published and returned. */
    method FetchExpenses(expense: Store, reachable: bool, month: string, year: int) returns (r: Option<real>)
      modifies this
      ensures reachable ==> r == Some(AmountSum(Collection(expense, Partition(year, month)))) && totalExpense == r.value
      ensures !reachable ==> r == None && totalExpense == old(totalExpense)
      ensures categories == old(categories) && totalIncome == old(totalIncome)
      ensures categoryTotals == old(categoryTotals)
    {
      if reachable {
        var total := TotalAmount(Collection(expense, Partition(year, month)));
        totalExpense := total;
        r := Some(total);
      } else {
        r := None;
      }
    }

    /** `fetchCategoryTotals`: the month's per-category totals, sorted by lower-cased name. */
    method FetchCategoryTotals(expense: Store, reachable: bool, month: string, year: int)
      modifies this
      ensures var docs := Collection(expense, Partition(year, month));
        reachable ==>
          && (forall i, j :: 0 <= i < j < |categoryTotals| ==> categoryTotals[i].name != categoryTotals[j].name)
          && (forall i :: 0 <= i < |categoryTotals| ==>
                categoryTotals[i].name in Categories(docs) && categoryTotals[i].total == CategorySum(docs, categoryTotals[i].name))
          && (forall c :: c in Categories(docs) ==> exists i :: 0 <= i < |categoryTotals| && categoryTotals[i].name == c)
          && (forall i, j :: 0 <= i < j < |categoryTotals| ==>
                LexLe(Lower(categoryTotals[i].name), Lower(categoryTotals[j].name)))
      ensures !reachable ==> categoryTotals == old(categoryTotals)
      ensures categories == old(categories) && totalIncome == old(totalIncome) && totalExpense == old(totalExpense)
    {
      if reachable {
        categoryTotals := CategoryTotals(Collection(expense, Partition(year, month)));
      }
    }

    /**
     * `addNewCategory`: appends a name not yet listed and hands it to the
     * callback (the result); a listed name changes nothing and the callback
     * is not called.
     */
    method AddNewCategory(category: string) returns (selected: Option<string>)
      modifies this
      ensures categories == AddUnique(old(categories), category)
      ensures selected.Some? <==> category !in old(categories)
      ensures selected.Some? ==> selected.value == category
      ensures totalIncome == old(totalIncome) && totalExpense == old(totalExpense)
      ensures categoryTotals == old(categoryTotals)
    {
      if category in categories {
        selected := None;
      } else {
        categories := AddUnique(categories, category);
        selected := Some(category);
      }
    }

    /** The local step of `deleteCategory`, taken once the remote category document is found and deleted. */
    method RemoveCategoryLocally(category: string)
      modifies this
      ensures categories == RemoveFirst(old(categories), category)
      ensures totalIncome == old(totalIncome) && totalExpense == old(totalExpense)
      ensures categoryTotals == old(categoryTotals)
    {
      categories := RemoveFirst(categories, category);
    }
  }
}
