/**
 * The day's market mood: a banded label for one stock's change rate, a label
 * for the index move and market breadth, and the combination of two labels.
 *
 * Labels are the strings the program compares and returns.
 */
module TodaysSentiment {

  import opened Wrappers

  /** A quote's change_rate field: absent, a number, or some non-numeric value. */
  datatype ChangeRate = Missing | Numeric(rate: real) | NonNumeric

  /** The part of a stock quote the news analysis reads. */
  datatype Quote = Quote(changeRate: ChangeRate)

  /** Counts of advancing and declining issues. */
  datatype Breadth = Breadth(advancing: int, declining: int)

  /**
   * A non-empty market snapshot; each field may be absent. An empty or missing
   * snapshot is None at the call site.
   */
  datatype Snapshot = Snapshot(indexChange: Option<real>, breadth: Option<Breadth>)

  // ---------------------------------------------------------------------
  // Change-rate bands

  /** The five bands of a change rate, in percent, split at -1, 0 and 1. */
  function RateBand(rate: real): (band: string)
    ensures band == "Strongly Positive" <==> rate > 1.0
    ensures band == "Positive" <==> 0.0 < rate <= 1.0
    ensures band == "Neutral" <==> rate == 0.0
    ensures band == "Negative" <==> -1.0 <= rate < 0.0
    ensures band == "Strongly Negative" <==> rate < -1.0
  {
    if rate > 1.0 then "Strongly Positive"
    else if rate > 0.0 then "Positive"
    else if rate < -1.0 then "Strongly Negative"
    else if rate < 0.0 then "Negative"
    else "Neutral"
  }

  /** The position of a band label on the scale from -2 to 2. */
  function Rank(band: string): int {
    if band == "Strongly Positive" then 2
    else if band == "Positive" then 1
    else if band == "Negative" then -1
    else if band == "Strongly Negative" then -2
    else 0
  }

  /** The label a band gets when every sign is flipped. */
  function MirrorBand(band: string): string {
    if band == "Strongly Positive" then "Strongly Negative"
    else if band == "Positive" then "Negative"
    else if band == "Negative" then "Positive"
    else if band == "Strongly Negative" then "Strongly Positive"
    else band
  }

  /** A higher change rate never lands in a lower band. */
  lemma RateBandMonotone(a: real, b: real)
    requires a <= b
    ensures Rank(RateBand(a)) <= Rank(RateBand(b))
  {
  }

  /** The bands are symmetric about zero: negating the rate mirrors the label. */
  lemma RateBandSymmetric(rate: real)
    ensures RateBand(-rate) == MirrorBand(RateBand(rate))
  {
  }

  /** The label's sign is the rate's sign. */
  lemma RateBandSign(rate: real)
    ensures Rank(RateBand(rate)) > 0 <==> rate > 0.0
    ensures Rank(RateBand(rate)) < 0 <==> rate < 0.0
  {
  }

  /**
   * One stock's label: a message naming the symbol when there is no quote, the
   * rate's band for a numeric change rate, and Neutral when the rate is missing
   * (read as 0) or not a number.
   */
  function AnalyzeNewsSentiment(symbol: string, quote: Option<Quote>): (band: string)
    ensures quote.None? ==> band == "Unable to analyze - no market data available for " + symbol
    ensures quote.Some? && quote.value.changeRate.Numeric? ==> band == RateBand(quote.value.changeRate.rate)
    ensures quote.Some? && !quote.value.changeRate.Numeric? ==> band == "Neutral"
  {
    match quote
    case None => "Unable to analyze - no market data available for " + symbol
    case Some(q) =>
      var rate := match q.changeRate
        case Missing => 0.0
        case Numeric(r) => r
        case NonNumeric => 0.0;
      if q.changeRate.NonNumeric? then "Neutral" else RateBand(rate)
  }

  /** A quote without data is never given a band label. */
  lemma MissingQuoteIsNotALabel(symbol: string)
    ensures Rank(AnalyzeNewsSentiment(symbol, None)) == 0
    ensures AnalyzeNewsSentiment(symbol, None) != "Neutral"
  {
    var msg := AnalyzeNewsSentiment(symbol, None);
    assert |msg| > |"Strongly Positive"|;
  }

  // ---------------------------------------------------------------------
  // Market data

  /**
   * Positive when the index rose and more issues advanced than declined, Negative
   * on the mirror image, Neutral otherwise; absent fields read as 0.
   */
  function AnalyzeMarketData(snapshot: Option<Snapshot>): (band: string)
    ensures snapshot.None? ==> band == "Neutral"
    ensures band == "Positive" <==>
      snapshot.Some? && IndexChange(snapshot.value) > 0.0
      && Advancing(snapshot.value) > Declining(snapshot.value)
    ensures band == "Negative" <==>
      snapshot.Some? && IndexChange(snapshot.value) < 0.0
      && Declining(snapshot.value) > Advancing(snapshot.value)
    ensures band == "Positive" || band == "Negative" || band == "Neutral"
  {
    match snapshot
    case None => "Neutral"
    case Some(s) =>
      var change, breadth := IndexChange(s), if s.breadth.Some? then s.breadth.value else Breadth(0, 0);
      if change > 0.0 && breadth.advancing > breadth.declining then "Positive"
      else if change < 0.0 && breadth.declining > breadth.advancing then "Negative"
      else "Neutral"
  }

  function IndexChange(s: Snapshot): real {
    if s.indexChange.Some? then s.indexChange.value else 0.0
  }

  function Advancing(s: Snapshot): int {
    if s.breadth.Some? then s.breadth.value.advancing else 0
  }

  function Declining(s: Snapshot): int {
    if s.breadth.Some? then s.breadth.value.declining else 0
  }

  /** The snapshot read with every direction reversed. */
  function Reversed(s: Snapshot): Snapshot {
    Snapshot(
      if s.indexChange.Some? then Some(-s.indexChange.value) else None,
      if s.breadth.Some? then Some(Breadth(s.breadth.value.declining, s.breadth.value.advancing)) else None)
  }

  /** Reversing the market turns Positive into Negative and back, and keeps Neutral. */
  lemma MarketDataSymmetric(s: Snapshot)
    ensures AnalyzeMarketData(Some(Reversed(s))) == MirrorBand(AnalyzeMarketData(Some(s)))
  {
  }

  /** With no breadth figures the advancing and declining counts tie, so the market reads Neutral. */
  lemma NoBreadthIsNeutral(change: Option<real>)
    ensures AnalyzeMarketData(Some(Snapshot(change, None))) == "Neutral"
  {
  }

  // ---------------------------------------------------------------------
  // Combining the two labels

  /** Optimistic when both labels are Positive, Pessimistic when both are Negative, otherwise Neutral. */
  function EvaluateSentiment(newsSentiment: string, marketDataSentiment: string): (mood: string)
    ensures mood == "Optimistic" <==> newsSentiment == "Positive" && marketDataSentiment == "Positive"
    ensures mood == "Pessimistic" <==> newsSentiment == "Negative" && marketDataSentiment == "Negative"
    ensures mood == "Neutral" <==> !(newsSentiment == marketDataSentiment == "Positive")
                                   && !(newsSentiment == marketDataSentiment == "Negative")
  {
    if newsSentiment == "Positive" && marketDataSentiment == "Positive" then "Optimistic"
    else if newsSentiment == "Negative" && marketDataSentiment == "Negative" then "Pessimistic"
    else "Neutral"
  }

  function MirrorMood(mood: string): string {
    if mood == "Optimistic" then "Pessimistic"
    else if mood == "Pessimistic" then "Optimistic"
    else mood
  }

  /** The combination does not depend on which label is which. */
  lemma EvaluateSentimentCommutes(a: string, b: string)
    ensures EvaluateSentiment(a, b) == EvaluateSentiment(b, a)
  {
  }

  /** Mirroring both labels mirrors the mood. */
  lemma EvaluateSentimentSymmetric(a: string, b: string)
    ensures EvaluateSentiment(MirrorBand(a), MirrorBand(b)) == MirrorMood(EvaluateSentiment(a, b))
  {
  }

  /**
   * A strongly rising stock does not count as Positive news: with a change rate
   * above 1 the mood is Neutral even when the market reads Positive.
   */
  lemma StrongNewsIsNotPositive(symbol: string, rate: real)
    requires rate > 1.0
    ensures EvaluateSentiment(AnalyzeNewsSentiment(symbol, Some(Quote(Numeric(rate)))), "Positive") == "Neutral"
  {
  }
}
