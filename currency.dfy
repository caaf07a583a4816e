/**
 * The currency picker (Settings/CurrencyView.swift): the fixed list of
 * (code, symbol) pairs and its re-ordering with the selected symbol's
 * entries on top.
 */
module Currency {
  import opened Wrappers
  import opened Ordering

  type Entry = (string, string)

  /** The currencies offered, as (code, symbol). */
  const Currencies: seq<Entry> := [
    ("AUD", "$"), ("BRL", "R$"), ("DKK", "kr"), ("HKD", "$"),
    ("JPY", "¥"), ("MAD", "Dhs"), ("INR", "₹"), ("CRC", "₡")]

  /** The symbol the view starts with: the user's currency, "£" when there is none. */
  function InitialSymbol(userCurrency: Option<string>): (s: string)
    ensures userCurrency.Some? ==> s == userCurrency.value
    ensures userCurrency.None? ==> s == "£"
  {
    userCurrency.GetOr("£")
  }

  function HasSymbol(symbol: string): Entry -> bool {
    (e: Entry) => e.1 == symbol
  }

  function LacksSymbol(symbol: string): Entry -> bool {
    (e: Entry) => e.1 != symbol
  }

  /** `sortedCurrencies`: the entries with the selected symbol, then the others. */
  function SortedCurrencies(list: seq<Entry>, symbol: string): (r: seq<Entry>)
    ensures |r| == |list|
    ensures multiset(r) == multiset(list)
  {
    FilterSplit(list, HasSymbol(symbol), LacksSymbol(symbol));
    assert |multiset(Filter(list, HasSymbol(symbol)))| + |multiset(Filter(list, LacksSymbol(symbol)))| == |multiset(list)|;
    Filter(list, HasSymbol(symbol)) + Filter(list, LacksSymbol(symbol))
  }

  /** Every entry with the selected symbol comes before every entry without it. */
  lemma SelectedFirst(list: seq<Entry>, symbol: string)
    ensures var r := SortedCurrencies(list, symbol);
      forall i, j :: 0 <= i < j < |r| && r[j].1 == symbol ==> r[i].1 == symbol
  {
    var a := Filter(list, HasSymbol(symbol));
    var b := Filter(list, LacksSymbol(symbol));
    var r := a + b;
    forall k | 0 <= k < |r| ensures (r[k].1 == symbol <==> k < |a|) {
      if k < |a| {
        assert r[k] == a[k] && HasSymbol(symbol)(a[k]);
      } else {
        assert r[k] == b[k - |a|] && LacksSymbol(symbol)(b[k - |a|]);
      }
    }
  }

  /** Each group keeps the order it has in the list. */
  lemma GroupsKeepOrder(list: seq<Entry>, symbol: string)
    ensures Filter(SortedCurrencies(list, symbol), HasSymbol(symbol)) == Filter(list, HasSymbol(symbol))
    ensures Filter(SortedCurrencies(list, symbol), LacksSymbol(symbol)) == Filter(list, LacksSymbol(symbol))
  {
    var a := Filter(list, HasSymbol(symbol));
    var b := Filter(list, LacksSymbol(symbol));
    FilterAppend(a, b, HasSymbol(symbol));
    FilterAppend(a, b, LacksSymbol(symbol));
    FilterAll(a, HasSymbol(symbol));
    FilterNone(b, HasSymbol(symbol));
    FilterNone(a, LacksSymbol(symbol));
    FilterAll(b, LacksSymbol(symbol));
  }

  /** A symbol no entry carries leaves the list as it is. */
  lemma UnmatchedKeepsList(list: seq<Entry>, symbol: string)
    requires forall i :: 0 <= i < |list| ==> list[i].1 != symbol
    ensures SortedCurrencies(list, symbol) == list
  {
    FilterNone(list, HasSymbol(symbol));
    FilterAll(list, LacksSymbol(symbol));
  }

  /** A user without a currency sees the list in its declared order: "£" is not among the symbols. */
  lemma DefaultSymbolKeepsList()
    ensures SortedCurrencies(Currencies, InitialSymbol(None)) == Currencies
  {
    forall i | 0 <= i < |Currencies| ensures Currencies[i].1 != "£" {
      assert Currencies[i].1[0] != '£';
    }
    UnmatchedKeepsList(Currencies, "£");
  }

  /** With matches at positions 0 and 3 and none between, those two entries lead the sorted list. */
  lemma MatchesAtZeroAndThree(list: seq<Entry>, symbol: string)
    requires |list| >= 4
    requires list[0].1 == symbol && list[1].1 != symbol && list[2].1 != symbol && list[3].1 == symbol
    ensures var r := SortedCurrencies(list, symbol); |r| >= 2 && r[0] == list[0] && r[1] == list[3]
  {
    var p := HasSymbol(symbol);
    var rest := list[4..];
    assert list == [list[0]] + ([list[1]] + ([list[2]] + ([list[3]] + rest)));
    FilterCons(list[3], rest, p);
    FilterCons(list[2], [list[3]] + rest, p);
    FilterCons(list[1], [list[2]] + ([list[3]] + rest), p);
    FilterCons(list[0], [list[1]] + ([list[2]] + ([list[3]] + rest)), p);
  }

  /** Selecting "$" puts AUD and then HKD on top. */
  lemma DollarPutsAudThenHkd()
    ensures var r := SortedCurrencies(Currencies, "$");
      |r| >= 2 && r[0] == ("AUD", "$") && r[1] == ("HKD", "$")
  {
    assert Currencies[1].1[0] != '$' && Currencies[2].1[0] != '$';
    MatchesAtZeroAndThree(Currencies, "$");
  }
}
