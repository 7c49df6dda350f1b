/**
 * Buy/Sell/Hold advice for one company: the price against its moving average,
 * combined with a keyword count over recent news titles.
 *
 * The quote, the daily closes and the news titles are what the market-data
 * service returned for the symbol; they are passed in as values.
 */
module CompanyFeedback {

  import opened Wrappers

  datatype Recommendation = Buy | Sell | Hold

  datatype Sentiment = Positive | Negative | Neutral

  /** The part of a stock quote the analysis reads. */
  datatype Quote = Quote(currentPrice: real)

  // ---------------------------------------------------------------------
  // The decision rule

  /** Buy on a price above its average with positive news, sell on the mirror image, otherwise hold. */
  function Recommend(price: real, movingAverage: real, sentiment: Sentiment): (r: Recommendation)
    ensures r == Buy <==> price > movingAverage && sentiment == Positive
    ensures r == Sell <==> price < movingAverage && sentiment == Negative
    ensures r == Hold <==>
      (!(price > movingAverage && sentiment == Positive) && !(price < movingAverage && sentiment == Negative))
  {
    if price > movingAverage && sentiment == Positive then Buy
    else if price < movingAverage && sentiment == Negative then Sell
    else Hold
  }

  function MirrorSentiment(s: Sentiment): Sentiment {
    match s
    case Positive => Negative
    case Negative => Positive
    case Neutral => Neutral
  }

  function MirrorRecommendation(r: Recommendation): Recommendation {
    match r
    case Buy => Sell
    case Sell => Buy
    case Hold => Hold
  }

  /**
   * The rule treats buying and selling alike: reflecting the price about the
   * average and flipping the news turns each Buy into a Sell and back.
   */
  lemma RecommendSymmetric(price: real, movingAverage: real, sentiment: Sentiment)
    ensures Recommend(2.0 * movingAverage - price, movingAverage, MirrorSentiment(sentiment))
         == MirrorRecommendation(Recommend(price, movingAverage, sentiment))
  {
  }

  /** A price at its average never trades, whatever the news says. */
  lemma PriceAtAverageHolds(price: real, sentiment: Sentiment)
    ensures Recommend(price, price, sentiment) == Hold
  {
  }

  /** A Buy stays a Buy at any higher price; a Sell stays a Sell at any lower one. */
  lemma RecommendMonotone(price: real, higher: real, movingAverage: real, sentiment: Sentiment)
    requires price <= higher
    ensures Recommend(price, movingAverage, sentiment) == Buy ==> Recommend(higher, movingAverage, sentiment) == Buy
    ensures Recommend(higher, movingAverage, sentiment) == Sell ==> Recommend(price, movingAverage, sentiment) == Sell
  {
  }

  /** The three cases of the test suite, with the moving average fixed at 140. */
  lemma RecommendExamples()
    ensures Recommend(150.0, 140.0, Positive) == Buy
    ensures Recommend(130.0, 140.0, Negative) == Sell
    ensures Recommend(145.0, 140.0, Neutral) == Hold
  {
  }

  // ---------------------------------------------------------------------
  // The moving average

  function Sum(xs: seq<real>): real
    decreases |xs|
  {
    if xs == [] then 0.0 else xs[0] + Sum(xs[1..])
  }

  function Min(xs: seq<real>): (m: real)
    requires xs != []
    decreases |xs|
    ensures m in xs
    ensures forall i :: 0 <= i < |xs| ==> m <= xs[i]
  {
    if |xs| == 1 then xs[0]
    else var rest := Min(xs[1..]); if xs[0] <= rest then xs[0] else rest
  }

  function Max(xs: seq<real>): (m: real)
    requires xs != []
    decreases |xs|
    ensures m in xs
    ensures forall i :: 0 <= i < |xs| ==> xs[i] <= m
  {
    if |xs| == 1 then xs[0]
    else var rest := Max(xs[1..]); if xs[0] >= rest then xs[0] else rest
  }

  /** n values none below lo sum to at least n times lo. */
  lemma {:induction false} SumAtLeast(xs: seq<real>, lo: real)
    requires forall i :: 0 <= i < |xs| ==> lo <= xs[i]
    decreases |xs|
    ensures |xs| as real * lo <= Sum(xs)
  {
    if xs != [] {
      SumAtLeast(xs[1..], lo);
    }
  }

  /** n values none above hi sum to at most n times hi. */
  lemma {:induction false} SumAtMost(xs: seq<real>, hi: real)
    requires forall i :: 0 <= i < |xs| ==> xs[i] <= hi
    decreases |xs|
    ensures Sum(xs) <= |xs| as real * hi
  {
    if xs != [] {
      SumAtMost(xs[1..], hi);
    }
  }

  /**
   * The arithmetic mean of the closes, 0 when there are none; it lies between the
   * lowest and the highest close.
   */
  function MovingAverage(closes: seq<real>): (avg: real)
    ensures closes == [] ==> avg == 0.0
    ensures closes != [] ==> Min(closes) <= avg <= Max(closes)
  {
    if closes == [] then 0.0
    else
      MeanWithinBounds(closes, Min(closes), Max(closes));
      Sum(closes) / |closes| as real
  }

  /** The mean of values that all lie in [lo, hi] lies in [lo, hi]. */
  lemma MeanWithinBounds(closes: seq<real>, lo: real, hi: real)
    requires closes != []
    requires forall i :: 0 <= i < |closes| ==> lo <= closes[i] <= hi
    ensures lo <= Sum(closes) / |closes| as real <= hi
  {
    var n := |closes| as real;
    SumAtLeast(closes, lo);
    QuotientAtLeast(Sum(closes), n, lo);
    SumAtMost(closes, hi);
    QuotientAtMost(Sum(closes), n, hi);
  }

  lemma QuotientAtLeast(total: real, n: real, lo: real)
    requires n > 0.0 && n * lo <= total
    ensures lo <= total / n
  {
    assert total / n * n == total;
  }

  lemma QuotientAtMost(total: real, n: real, hi: real)
    requires n > 0.0 && total <= n * hi
    ensures total / n <= hi
  {
    assert total / n * n == total;
  }

  /** The average of a run of equal closes is that close. */
  lemma {:induction false} MovingAverageConstant(closes: seq<real>, c: real)
    requires closes != []
    requires forall i :: 0 <= i < |closes| ==> closes[i] == c
    ensures MovingAverage(closes) == c
  {
    MeanWithinBounds(closes, c, c);
  }

  // ---------------------------------------------------------------------
  // News sentiment

  /** ASCII lower-casing of one character. */
  function LowerChar(c: char): (d: char)
    ensures !('A' <= c <= 'Z') ==> d == c
  {
    if 'A' <= c <= 'Z' then (c as int + 32) as char else c
  }

  function Lower(s: string): (t: string)
    ensures |t| == |s|
    ensures forall i :: 0 <= i < |s| ==> t[i] == LowerChar(s[i])
  {
    seq(|s|, i requires 0 <= i < |s| => LowerChar(s[i]))
  }

  /** word occurs in text starting at position i. */
  predicate OccursAt(text: string, word: string, i: nat) {
    i + |word| <= |text| && text[i..i + |word|] == word
  }

  /** Whether word occurs in text as a contiguous substring. */
  function Contains(text: string, word: string): (r: bool)
    decreases |text|
    ensures r <==> exists i: nat :: OccursAt(text, word, i)
  {
    if |text| < |word| then false
    else if text[..|word|] == word then
      assert OccursAt(text, word, 0);
      true
    else
      var r := Contains(text[1..], word);
      ContainsShift(text, word);
      r
  }

  /** Past a mismatch at the front, occurrences in text are those in its tail, shifted by one. */
  lemma ContainsShift(text: string, word: string)
    requires |text| >= |word| && text[..|word|] != word
    ensures (exists i: nat :: OccursAt(text, word, i)) <==> (exists i: nat :: OccursAt(text[1..], word, i))
  {
    if exists i: nat :: OccursAt(text, word, i) {
      var i: nat :| OccursAt(text, word, i);
      assert i != 0;
      assert text[1..][i - 1..i - 1 + |word|] == text[i..i + |word|];
      assert OccursAt(text[1..], word, i - 1);
    }
    if exists i: nat :: OccursAt(text[1..], word, i) {
      var i: nat :| OccursAt(text[1..], word, i);
      assert text[1..][i..i + |word|] == text[i + 1..i + 1 + |word|];
      assert OccursAt(text, word, i + 1);
    }
  }

  /** A title mentions a keyword when its lower-cased form contains it. */
  predicate Mentions(title: string, keyword: string)
    ensures Mentions(title, keyword) <==> exists i: nat :: OccursAt(Lower(title), keyword, i)
  {
    Contains(Lower(title), keyword)
  }

  /** The number of titles that mention the keyword. */
  function CountMentions(titles: seq<string>, keyword: string): (n: nat)
    decreases |titles|
    ensures n <= |titles|
  {
    if titles == [] then 0
    else (if Mentions(titles[0], keyword) then 1 else 0) + CountMentions(titles[1..], keyword)
  }

  /** Counting over a concatenation adds the counts of both parts. */
  lemma {:induction false} CountMentionsAppend(a: seq<string>, b: seq<string>, keyword: string)
    decreases |a|
    ensures CountMentions(a + b, keyword) == CountMentions(a, keyword) + CountMentions(b, keyword)
  {
    if a == [] {
      assert a + b == b;
    } else {
      assert (a + b)[0] == a[0];
      assert (a + b)[1..] == a[1..] + b;
      CountMentionsAppend(a[1..], b, keyword);
    }
  }

  /** Every title counts once per keyword it mentions, so one title can count on both sides. */
  lemma CountMentionsSingle(title: string, keyword: string)
    ensures CountMentions([title], keyword) == if Mentions(title, keyword) then 1 else 0
  {
    assert [title][1..] == [];
  }

  /** The keyword is matched whatever the case of the title. */
  lemma MentionsIgnoresCase()
    ensures Mentions("Analysts turn BULLISH", "bullish")
  {
    var t := Lower("Analysts turn BULLISH");
    assert t[14..21] == "bullish";
    assert OccursAt(t, "bullish", 14);
  }

  /** Positive when bullish titles outnumber bearish ones, Negative on the reverse, Neutral on a tie. */
  function NewsSentiment(titles: seq<string>): (s: Sentiment)
    ensures titles == [] ==> s == Neutral
    ensures s == Positive <==> CountMentions(titles, "bullish") > CountMentions(titles, "bearish")
    ensures s == Negative <==> CountMentions(titles, "bearish") > CountMentions(titles, "bullish")
    ensures s == Neutral <==> CountMentions(titles, "bullish") == CountMentions(titles, "bearish")
  {
    if titles == [] then Neutral
    else
      var positive := CountMentions(titles, "bullish");
      var negative := CountMentions(titles, "bearish");
      if positive > negative then Positive
      else if negative > positive then Negative
      else Neutral
  }

  /** One more purely bullish title never makes the news less positive. */
  lemma BullishTitleRaisesSentiment(titles: seq<string>, title: string)
    requires Mentions(title, "bullish") && !Mentions(title, "bearish")
    ensures NewsSentiment(titles) != Negative ==> NewsSentiment(titles + [title]) == Positive
    ensures NewsSentiment(titles) == Negative ==> NewsSentiment(titles + [title]) != Positive
  {
    CountMentionsAppend(titles, [title], "bullish");
    CountMentionsAppend(titles, [title], "bearish");
    CountMentionsSingle(title, "bullish");
    CountMentionsSingle(title, "bearish");
  }

  // ---------------------------------------------------------------------
  // The analysis

  /**
   * Holds when no quote is available; otherwise applies the rule to the quoted
   * price, the mean of the closes and the sentiment of the titles.
   */
  function AnalyzeStock(quote: Option<Quote>, closes: seq<real>, titles: seq<string>): (r: Recommendation)
    ensures quote.None? ==> r == Hold
    ensures r == Buy <==> quote.Some? && quote.value.currentPrice > MovingAverage(closes)
                          && CountMentions(titles, "bullish") > CountMentions(titles, "bearish")
    ensures r == Sell <==> quote.Some? && quote.value.currentPrice < MovingAverage(closes)
                           && CountMentions(titles, "bearish") > CountMentions(titles, "bullish")
  {
    match quote
    case None => Hold
    case Some(q) => Recommend(q.currentPrice, MovingAverage(closes), NewsSentiment(titles))
  }
}
