/**
 * Stock screening: a table of per-preference thresholds, the test of one stock
 * against them, and the order-preserving filter over the market's stock list.
 */
module StockRecommendation {

  import opened Wrappers

  /** A stock record: its symbol and its numeric fields, by name. */
  datatype Stock = Stock(symbol: string, fields: map<string, real>)

  /** One criterion of a preference: the field must not be below the threshold. */
  datatype Threshold = Threshold(key: string, minimum: real)

  /** A stock's value for a field, 0 when the record lacks it. */
  function Field(stock: Stock, key: string): (v: real)
    ensures key in stock.fields ==> v == stock.fields[key]
    ensures key !in stock.fields ==> v == 0.0
  {
    if key in stock.fields then stock.fields[key] else 0.0
  }

  /**
   * The preferences table, each preference's criteria in declaration order;
   * an unknown preference has no criteria.
   */
  function Criteria(preference: string): (c: seq<Threshold>)
    ensures preference != "Growth" && preference != "Value" ==> c == []
  {
    if preference == "Growth" then [Threshold("revenue_growth", 20.0), Threshold("profit_growth", 20.0)]
    else if preference == "Value" then [Threshold("pe_ratio", 20.0), Threshold("pb_ratio", 3.0)]
    else []
  }

  /** Walks the criteria in order and fails at the first field below its threshold. */
  function MeetsAll(stock: Stock, criteria: seq<Threshold>): (ok: bool)
    decreases |criteria|
    ensures ok <==> forall i :: 0 <= i < |criteria| ==> Field(stock, criteria[i].key) >= criteria[i].minimum
  {
    if criteria == [] then true
    else if Field(stock, criteria[0].key) < criteria[0].minimum then false
    else MeetsAll(stock, criteria[1..])
  }

  /**
   * A stock meets a preference when no field named by the preference's criteria
   * is below its threshold; a preference missing from the table has no criteria.
   */
  predicate MeetsCriteria(stock: Stock, preference: string)
    ensures preference != "Growth" && preference != "Value" ==> MeetsCriteria(stock, preference)
  {
    MeetsAll(stock, Criteria(preference))
  }

  /** Growth asks for revenue and profit growth of at least 20 each. */
  lemma GrowthCriteria(stock: Stock)
    ensures MeetsCriteria(stock, "Growth")
        <==> Field(stock, "revenue_growth") >= 20.0 && Field(stock, "profit_growth") >= 20.0
  {
    var c := Criteria("Growth");
    assert c[0].key == "revenue_growth" && c[1].key == "profit_growth";
  }

  /** Value asks for a P/E ratio of at least 20 and a P/B ratio of at least 3. */
  lemma ValueCriteria(stock: Stock)
    ensures MeetsCriteria(stock, "Value")
        <==> Field(stock, "pe_ratio") >= 20.0 && Field(stock, "pb_ratio") >= 3.0
  {
    var c := Criteria("Value");
    assert c[0].key == "pe_ratio" && c[1].key == "pb_ratio";
  }

  /** A stock meets a preference iff each of the preference's thresholds holds of it. */
  lemma MeetsCriteriaIff(stock: Stock, preference: string)
    ensures var c := Criteria(preference);
      MeetsCriteria(stock, preference) <==> forall i :: 0 <= i < |c| ==> Field(stock, c[i].key) >= c[i].minimum
  {
  }

  /** A stock lacking a field is judged as if the field were 0. */
  lemma MissingFieldFailsGrowth(stock: Stock)
    requires "revenue_growth" !in stock.fields
    ensures !MeetsCriteria(stock, "Growth")
  {
    GrowthCriteria(stock);
  }

  // ---------------------------------------------------------------------
  // The filter

  /** The stocks meeting the preference, in their original order. */
  function Screen(stocks: seq<Stock>, preference: string): (r: seq<Stock>)
    decreases |stocks|
    ensures |r| <= |stocks|
  {
    if stocks == [] then []
    else (if MeetsCriteria(stocks[0], preference) then [stocks[0]] else [])
         + Screen(stocks[1..], preference)
  }

  /** a can be obtained from b by deleting elements. */
  predicate IsSubsequence<T(==)>(a: seq<T>, b: seq<T>)
    decreases |b|
  {
    if a == [] then true
    else if b == [] then false
    else (a[0] == b[0] && IsSubsequence(a[1..], b[1..])) || IsSubsequence(a, b[1..])
  }

  /** The screen keeps the input's order: its result is a subsequence of the input. */
  lemma {:induction false} ScreenIsSubsequence(stocks: seq<Stock>, preference: string)
    decreases |stocks|
    ensures IsSubsequence(Screen(stocks, preference), stocks)
  {
    if stocks != [] {
      var rest := Screen(stocks[1..], preference);
      ScreenIsSubsequence(stocks[1..], preference);
      if MeetsCriteria(stocks[0], preference) {
        assert Screen(stocks, preference) == [stocks[0]] + rest;
        assert ([stocks[0]] + rest)[1..] == rest;
      } else {
        assert Screen(stocks, preference) == rest;
        SubsequenceOfTail(rest, stocks);
      }
    }
  }

  lemma SubsequenceOfTail<T>(a: seq<T>, b: seq<T>)
    requires b != [] && IsSubsequence(a, b[1..])
    ensures IsSubsequence(a, b)
  {
  }

  /** The screen keeps exactly the qualifying stocks, each as often as the input holds it. */
  lemma {:induction false} ScreenCounts(stocks: seq<Stock>, preference: string, s: Stock)
    decreases |stocks|
    ensures multiset(Screen(stocks, preference))[s]
         == if MeetsCriteria(s, preference) then multiset(stocks)[s] else 0
  {
    if stocks != [] {
      ScreenCounts(stocks[1..], preference, s);
      assert stocks == [stocks[0]] + stocks[1..];
      assert multiset(stocks) == multiset([stocks[0]]) + multiset(stocks[1..]);
    }
  }

  /** A stock is in the result iff it is in the input and meets the preference. */
  lemma ScreenMembership(stocks: seq<Stock>, preference: string, s: Stock)
    ensures s in Screen(stocks, preference) <==> s in stocks && MeetsCriteria(s, preference)
  {
    ScreenCounts(stocks, preference, s);
    assert s in Screen(stocks, preference) <==> multiset(Screen(stocks, preference))[s] > 0;
    assert s in stocks <==> multiset(stocks)[s] > 0;
  }

  /** Screening an already screened list changes nothing. */
  lemma {:induction false} ScreenIdempotent(stocks: seq<Stock>, preference: string)
    decreases |stocks|
    ensures Screen(Screen(stocks, preference), preference) == Screen(stocks, preference)
  {
    if stocks != [] {
      var rest := Screen(stocks[1..], preference);
      ScreenIdempotent(stocks[1..], preference);
      if MeetsCriteria(stocks[0], preference) {
        var r := [stocks[0]] + rest;
        assert r[0] == stocks[0] && r[1..] == rest;
        assert Screen(stocks, preference) == r;
        assert Screen(r, preference) == [stocks[0]] + Screen(rest, preference);
      } else {
        assert Screen(stocks, preference) == rest;
      }
    }
  }

  /** Screening from position i handles stock i, then screens from i + 1. */
  lemma ScreenStep(stocks: seq<Stock>, i: nat, preference: string)
    requires i < |stocks|
    ensures Screen(stocks[i..], preference)
         == (if MeetsCriteria(stocks[i], preference) then [stocks[i]] else []) + Screen(stocks[i + 1..], preference)
  {
    assert stocks[i..][1..] == stocks[i + 1..];
  }

  /**
   * Asks the market for its stock list (None when it is missing) and keeps, in
   * order, the stocks that meet the preference; an empty or missing list gives [].
   */
  method RecommendStocks(marketStocks: Option<seq<Stock>>, preference: string) returns (filtered: seq<Stock>)
    ensures marketStocks.None? ==> filtered == []
    ensures marketStocks.Some? ==> filtered == Screen(marketStocks.value, preference)
  {
    if marketStocks.None? || marketStocks.value == [] {
      return [];
    }
    var stocks := marketStocks.value;
    filtered := [];
    for i := 0 to |stocks|
      invariant filtered + Screen(stocks[i..], preference) == Screen(stocks, preference)
    {
      ScreenStep(stocks, i, preference);
      if MeetsCriteria(stocks[i], preference) {
        filtered := filtered + [stocks[i]];
      }
    }
    assert stocks[|stocks|..] == [];
  }
}
