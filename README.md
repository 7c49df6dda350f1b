# moomoo-assist decision logic in Dafny

This project models the decision logic of the moomoo trading assistant. Broker
connections, threads and logging are removed. There are four components, one
module each:

- `Trading` (`automated_trading.dfy`): the strategy engine. `AutomatedTrading`
  is a class whose `tradeRecords` ledger is appended in place. Dispatch maps the
  strategy's `type` string to a runner. The breakout runner polls prices against
  an N-day high that it fetches once. The crossover runner carries the previous
  short and long moving averages from poll to poll. On a trigger, a runner builds
  one order, records the broker's reply if there is one, and stops. The status
  sweep queries every recorded order in insertion order. Each runner is specified
  by a function that gives the index of the first triggering poll
  (`BreakoutTrigger`, `CrossoverTrigger`). Its loop is proved to compute exactly
  that index, the order it builds, and the new ledger.
- `CompanyFeedback` (`company_feedback.dfy`): the Buy/Sell/Hold rule, the mean
  of the daily closes, and the bullish/bearish keyword count over news titles.
- `StockRecommendation` (`stock_recommendation.dfy`): the preferences table,
  the threshold test of one stock, and the order-preserving screen over the
  market's stock list.
- `TodaysSentiment` (`todays_sentiment.dfy`): the five change-rate bands, the
  index/breadth label, and the combination of two labels into a mood.

`Wrappers` (`wrappers.dfy`) holds the `Option` type. It stands for Python's
`None` and for the falsy replies the source tests with `if not ...`.

The market-data and broker lookups become values handed to the model.
`get_n_days_high`, `get_real_time_price`, `get_moving_average`, `get_order_status`,
`get_historical_k_lines`, `get_company_news`, `get_market_snapshot` and
`get_market_stock_list` are not methods of `MooMooAPI`. `get_stock_quote` and
`place_order` are methods of `MooMooAPI`, but they too become inputs:

- the N-day high is a number;
- the polled prices and the (price, short average, long average) polls are
  finite sequences;
- the broker's `place_order` is a function from the order to an optional reply;
- `get_order_status` is a function from an order id to a status string;
- a quote, the daily closes, the news titles, a market snapshot and the market's
  stock list are parameters.

Each `while True` loop runs over the polls it received and terminates when they
run out. Prices, averages and rates are `real`, so the mean is exact.

The code has no cancellation, shutdown, retry, runner state machine or
order-status machine. A runner's only exit is its `break`. A falsy broker reply
leaves the ledger unchanged, and the runner stops all the same. `monitor_orders`
only queries and logs; it never updates a record.

## Model

| member | source | states |
|---|---|---|
| `Trading.Dispatch` | src/features/automated_trading.py:23-28 | 'BreakoutBuy' selects the breakout runner, 'MovingAverageCrossover' the crossover runner, and any other kind selects none (the error branch) |
| `Trading.AutomatedTrading.ExecuteStrategy` | src/features/automated_trading.py:18-28 | runs the runner dispatch selects and returns that runner's trigger and order; an unknown kind places no order and leaves the ledger unchanged |
| `Trading.BreakoutTrigger` | src/features/automated_trading.py:35-39 | the breakout fires at the first poll whose price is strictly above the high, and only there; if no price exceeds the high, it never fires |
| `Trading.BreakoutBoundary` | src/features/automated_trading.py:39 | a price equal to the high (100.00) does not fire; 100.01 does |
| `Trading.BreakoutScenario` | src/features/automated_trading.py:30-50 | a fresh engine running a breakout with a high of 50 over prices 48, 49, 51 against an accepting broker fires at the third poll, places a market order for quantity 10, and ends with exactly one ledger record |
| `Trading.RejectedOrderScenario` | src/features/automated_trading.py:46-50 | the same breakout against a broker that answers with a falsy reply fires at the third poll and leaves the ledger empty |
| `Trading.BreakoutTriggerIgnoresLaterPolls` | src/features/automated_trading.py:37-50 | once the breakout has fired, further polls cannot change when it fired (the loop breaks) |
| `Trading.BreakoutOrder` | src/features/automated_trading.py:40-45 | a breakout order is a "market" "buy" for the strategy's symbol and quantity, with no limit price |
| `Trading.AutomatedTrading.BreakoutBuy` | src/features/automated_trading.py:30-50 | the loop compares every poll with the one high it received, fires exactly at `BreakoutTrigger`, builds `BreakoutOrder`, and appends the broker's reply only when there is one |
| `Trading.CrossoverTrigger` | src/features/automated_trading.py:60-68 | the crossover fires at the first poll where the new short average is above the new long one and the previous short is at or below the previous long; the previous pair is the initial one, then the last poll's |
| `Trading.NoRetriggerWhileAbove` | src/features/automated_trading.py:68 | a poll that follows a poll with short above long never crosses, so staying above does not re-trigger |
| `Trading.FiresAtFirstAbove` | src/features/automated_trading.py:60-83 | starting at or below the long average, the runner fires exactly at the first poll whose short average exceeds the long one |
| `Trading.CrossoverTriggerIgnoresLaterPolls` | src/features/automated_trading.py:63-80 | once the crossover has fired, further polls cannot change when it fired |
| `Trading.CrossoverScenario` | src/features/automated_trading.py:60-83 | short/long 9/10, 11/10, 12/10 (initially 9/10) cross once, at the second poll, and not at the first or third |
| `Trading.CrossoverOrder` | src/features/automated_trading.py:69-75 | a crossover order is a "limit" "buy" for the strategy's symbol and quantity at the price polled in the same iteration |
| `Trading.Accepted` | src/features/automated_trading.py:46-48 | a runner adds at most one record: the broker's reply, and only when an order was placed and the reply is truthy |
| `Trading.AutomatedTrading.MovingAverageCrossover` | src/features/automated_trading.py:52-83 | the loop carries the previous averages forward while nothing fires, fires exactly at `CrossoverTrigger`, builds `CrossoverOrder` at that poll's price, and appends the reply only when there is one |
| `Trading.AutomatedTrading.MonitorOrders` | src/features/automated_trading.py:85-92 | queries the status of every recorded order, in insertion order, once each; the method has no modifies clause, so the ledger is unchanged |
| `Trading.AutomatedTrading.constructor` | src/features/automated_trading.py:16 | the ledger starts empty |
| `CompanyFeedback.Recommend` | src/features/company_feedback.py:31-36 | Buy iff price > average with Positive news; Sell iff price < average with Negative news; Hold in every other case |
| `CompanyFeedback.RecommendSymmetric` | src/features/company_feedback.py:31-36 | reflecting the price about the average and flipping the news swaps Buy and Sell and keeps Hold |
| `CompanyFeedback.PriceAtAverageHolds` | src/features/company_feedback.py:35-36 | a price equal to its average always gives Hold |
| `CompanyFeedback.RecommendMonotone` | src/features/company_feedback.py:31-34 | a Buy stays a Buy at a higher price; a Sell stays a Sell at a lower one |
| `CompanyFeedback.RecommendExamples` | tests/test_company_feedback.py:12-47 | 150 vs 140 with Positive gives Buy, 130 vs 140 with Negative gives Sell, 145 vs 140 with Neutral gives Hold |
| `CompanyFeedback.SumAtLeast` | src/features/company_feedback.py:49-50 | n closes none below lo sum to at least n * lo |
| `CompanyFeedback.SumAtMost` | src/features/company_feedback.py:49-50 | n closes none above hi sum to at most n * hi |
| `CompanyFeedback.MeanWithinBounds` | src/features/company_feedback.py:49-50 | the mean of closes that all lie in [lo, hi] lies in [lo, hi] |
| `CompanyFeedback.MovingAverage` | src/features/company_feedback.py:47-50 | 0 for no history; otherwise the mean of the closes, which lies between the lowest and the highest close (`Min` and `Max` are proved to be closes themselves) |
| `CompanyFeedback.MovingAverageConstant` | src/features/company_feedback.py:49-50 | the mean of equal closes is that close |
| `CompanyFeedback.Contains` | src/features/company_feedback.py:62-63 | the substring test holds iff the word occurs at some position of the text |
| `CompanyFeedback.Mentions` | src/features/company_feedback.py:62-63 | a title mentions a keyword iff the keyword occurs at some position of the lower-cased title |
| `CompanyFeedback.CountMentions` | src/features/company_feedback.py:62-63 | the number of titles whose lower-cased form contains the keyword, never more than the number of titles |
| `CompanyFeedback.CountMentionsAppend` | src/features/company_feedback.py:62-63 | the count over two lists of titles together is the sum of their counts |
| `CompanyFeedback.CountMentionsSingle` | src/features/company_feedback.py:62-63 | one title adds one to the count of every keyword it mentions, so a title with both words counts toward both |
| `CompanyFeedback.MentionsIgnoresCase` | src/features/company_feedback.py:62 | "Analysts turn BULLISH" mentions "bullish" |
| `CompanyFeedback.NewsSentiment` | src/features/company_feedback.py:59-70 | Neutral with no articles; Positive iff bullish titles outnumber bearish ones, Negative iff the reverse, Neutral on a tie |
| `CompanyFeedback.BullishTitleRaisesSentiment` | src/features/company_feedback.py:62-70 | adding a title that is bullish and not bearish makes non-negative news Positive, and never makes Negative news Positive |
| `CompanyFeedback.AnalyzeStock` | src/features/company_feedback.py:16-39 | Hold without a quote; Buy iff the quoted price is above the mean of the closes and bullish titles outnumber bearish ones; Sell iff the price is below the mean and bearish titles outnumber bullish ones |
| `StockRecommendation.Field` | src/features/stock_recommendation.py:43 | a stock's field is its recorded value, or 0 when the record lacks the key |
| `StockRecommendation.Criteria` | src/features/stock_recommendation.py:13-17 | a preference that is not in the table has no criteria |
| `StockRecommendation.MeetsAll` | src/features/stock_recommendation.py:41-45 | the early-return loop succeeds iff every criterion's field, read as 0 when missing, is not below its threshold |
| `StockRecommendation.GrowthCriteria` | src/features/stock_recommendation.py:14 | Growth holds iff revenue_growth >= 20 and profit_growth >= 20 |
| `StockRecommendation.ValueCriteria` | src/features/stock_recommendation.py:15 | Value holds iff pe_ratio >= 20 and pb_ratio >= 3, as the table and the `<` test state |
| `StockRecommendation.MeetsCriteria` | src/features/stock_recommendation.py:37-45 | every stock meets a preference that is not in the table, because `preferences.get` yields no criteria |
| `StockRecommendation.MeetsCriteriaIff` | src/features/stock_recommendation.py:37-45 | a stock meets a preference iff, for each criterion of the preference, its field (0 when missing) is not below the threshold |
| `StockRecommendation.MissingFieldFailsGrowth` | src/features/stock_recommendation.py:43 | a stock without revenue_growth is read as 0 and fails Growth |
| `StockRecommendation.Screen` | src/features/stock_recommendation.py:29-32 | the screened list is never longer than the input |
| `StockRecommendation.ScreenIsSubsequence` | src/features/stock_recommendation.py:29-32 | the result is an order-preserving subsequence of the input |
| `StockRecommendation.ScreenCounts` | src/features/stock_recommendation.py:29-32 | each qualifying stock appears in the result exactly as often as in the input, and no other stock appears |
| `StockRecommendation.ScreenMembership` | src/features/stock_recommendation.py:29-32 | a stock is in the result iff it is in the input and meets the preference |
| `StockRecommendation.ScreenIdempotent` | src/features/stock_recommendation.py:30-32 | screening the result again returns the same list |
| `StockRecommendation.RecommendStocks` | src/features/stock_recommendation.py:19-35 | a missing or empty market list gives []; otherwise the loop's appended list is exactly `Screen` of the list |
| `TodaysSentiment.RateBand` | src/features/todays_sentiment.py:43-51 | rate > 1 is Strongly Positive, 0 < rate <= 1 Positive, exactly 0 Neutral, -1 <= rate < 0 Negative, rate < -1 Strongly Negative |
| `TodaysSentiment.RateBandMonotone` | src/features/todays_sentiment.py:43-51 | a higher change rate never lands in a lower band |
| `TodaysSentiment.RateBandSymmetric` | src/features/todays_sentiment.py:43-50 | negating the rate mirrors the band, so the boundaries at 1 and -1 sit symmetrically |
| `TodaysSentiment.RateBandSign` | src/features/todays_sentiment.py:43-51 | the band is positive iff the rate is positive and negative iff the rate is negative |
| `TodaysSentiment.AnalyzeNewsSentiment` | src/features/todays_sentiment.py:33-51 | without a quote, the "Unable to analyze" message naming the symbol; a numeric rate gets its band; a missing rate (read as 0) or a non-numeric one gives Neutral |
| `TodaysSentiment.MissingQuoteIsNotALabel` | src/features/todays_sentiment.py:37-38 | the missing-quote message is neither Neutral nor any band |
| `TodaysSentiment.AnalyzeMarketData` | src/features/todays_sentiment.py:57-73 | Neutral for an empty snapshot; Positive iff index change > 0 and advancing > declining; Negative iff index change < 0 and declining > advancing; Neutral otherwise; absent fields read as 0 |
| `TodaysSentiment.MarketDataSymmetric` | src/features/todays_sentiment.py:68-73 | reversing the index move and swapping advancing with declining swaps Positive and Negative |
| `TodaysSentiment.NoBreadthIsNeutral` | src/features/todays_sentiment.py:66-73 | without breadth figures (0 advancing, 0 declining) the market reads Neutral |
| `TodaysSentiment.EvaluateSentiment` | src/features/todays_sentiment.py:23-28 | Optimistic iff both labels are Positive, Pessimistic iff both are Negative, Neutral otherwise |
| `TodaysSentiment.EvaluateSentimentCommutes` | src/features/todays_sentiment.py:23-28 | the mood does not depend on the order of the two labels |
| `TodaysSentiment.EvaluateSentimentSymmetric` | src/features/todays_sentiment.py:23-28 | mirroring both labels swaps Optimistic and Pessimistic |
| `TodaysSentiment.StrongNewsIsNotPositive` | src/features/todays_sentiment.py:23-28 | a change rate above 1 gives "Strongly Positive", which the combiner does not treat as "Positive", so the mood is Neutral even with a Positive market |

## Left out

- Threads: `execute_strategy` starts each runner on a thread. The model runs the selected runner to completion within the call, so there are no interleavings between runners or with `monitor_orders`.
- Unbounded polling: each `while True` loop runs over the finite poll sequence it is given. When the polls run out without a trigger, the model returns no trigger. The source would keep polling.
- Logging: logger calls are left out, including the error logged for an unknown strategy kind. The one exception is `MonitorOrders`: it returns the (id, status) pairs that `monitor_orders` writes to its debug log, because those are the queries it makes.
- Lookups: `get_n_days_high`, `get_real_time_price`, `get_moving_average`, `get_order_status`, `get_historical_k_lines`, `get_company_news`, `get_market_snapshot` and `get_market_stock_list` are not methods of `MooMooAPI`. Their results are passed in, as are the results of `get_stock_quote`. The periods and `n_days` are kept in `Strategy` but only select which value the caller passes.
- `place_order`: `MooMooAPI.place_order` takes `(code, price, qty, trd_side)`, but both runners call it with one order dict. As written, that call raises TypeError inside the runner thread, so no runner ever appends to `trade_records`. The model's `placeOrder: Order -> Option<OrderResponse>` deliberately abstracts the call as a broker that takes the order the runner built. Only with that abstraction does the ledger logic run at all.
- Default arguments: `recommend_stocks`' default `preference="Growth"` and `calculate_moving_average`'s default `period=20` are not modelled. The preference is always passed explicitly. The closes are whatever the 20-day lookup returned.
- Exceptions: missing dictionary keys raise in the source; the model's records always carry their fields. This covers `strategy['quantity']`, `article['title']`, `order['order_id']` and a breadth dict without 'advancing'. The `except` branch of `analyze_news_sentiment` is left out as well.
- Order replies: a reply is kept as its order id. Python truthiness of the reply becomes `Some` for truthy and `None` for falsy.
- Status updates: `monitor_orders` updates nothing, so the model has no order-status machine.
- `evaluate_sentiment`: the source calls `analyze_news_sentiment()` at src/features/todays_sentiment.py:20 without its `symbol` argument. That call raises TypeError, so lines 21-31 never run as written. `EvaluateSentiment` models the combiner of lines 23-28 with the two labels as parameters.
- Comparisons of `None` with numbers: a quote without `current_price` is not modelled. The quote always has a price.
- CompanyFeedback.LowerChar: lower-cases ASCII letters only, not the full Unicode mapping of Python's `str.lower`.
- Floating point: prices, averages and rates are exact reals, so the mean has no rounding.
- `active_strategies`: the source never reads or writes this list after creating it.
- src/api/moomoo_api.py, src/main.py, src/utils/logger.py, src/utils/data_processing.py and the dataclasses under src/models are not part of this model. They are I/O, CLI wiring, logging and plain records.
