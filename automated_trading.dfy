/**
 * The strategy engine: dispatch on the strategy kind, the breakout and
 * moving-average-crossover runners, the ledger of accepted orders and the
 * order-status sweep.
 *
 * Market data and the broker are oracles: the N-day high, the polled prices
 * and averages arrive as values and finite sequences, and order placement is
 * a function from the order to the broker's reply (None is a falsy reply).
 * Each unbounded polling loop becomes a loop over the polls it received.
 */
module Trading {

  import opened Wrappers

  /** The fields of a strategy configuration that the engine reads. */
  datatype Strategy = Strategy(
    name: string,
    kind: string,
    symbol: string,
    nDays: int,
    shortPeriod: int,
    longPeriod: int,
    quantity: int)

  /** The order dictionary built on a trigger; limitPrice is present for limit orders only. */
  datatype Order = Order(
    symbol: string,
    quantity: int,
    orderType: string,
    action: string,
    limitPrice: Option<real>)

  /** The broker's (truthy) reply to an accepted order. */
  datatype OrderResponse = OrderResponse(orderId: string)

  /** One iteration of the crossover runner: the price and both averages it polls. */
  datatype MaPoll = MaPoll(price: real, shortMa: real, longMa: real)

  /** Everything the market-data oracle hands to one run of a strategy. */
  datatype MarketFeed = MarketFeed(
    nDaysHigh: real,
    prices: seq<real>,
    initialShort: real,
    initialLong: real,
    polls: seq<MaPoll>)

  /** Which runner a strategy starts; Unknown starts none and only logs an error. */
  datatype Runner = BreakoutRunner | CrossoverRunner | Unknown

  function Dispatch(kind: string): (r: Runner)
    ensures r == BreakoutRunner <==> kind == "BreakoutBuy"
    ensures r == CrossoverRunner <==> kind == "MovingAverageCrossover"
    ensures r == Unknown <==> kind != "BreakoutBuy" && kind != "MovingAverageCrossover"
  {
    if kind == "BreakoutBuy" then BreakoutRunner
    else if kind == "MovingAverageCrossover" then CrossoverRunner
    else Unknown
  }

  // ---------------------------------------------------------------------
  // Breakout buy

  /** The order a breakout places: a market buy of the strategy's quantity. */
  function BreakoutOrder(s: Strategy): (o: Order)
    ensures o.symbol == s.symbol && o.quantity == s.quantity
    ensures o.orderType == "market" && o.action == "buy" && o.limitPrice.None?
  {
    Order(s.symbol, s.quantity, "market", "buy", None)
  }

  /** The poll at which a breakout fires: the first price strictly above the fixed high. */
  function BreakoutTrigger(high: real, prices: seq<real>): (r: Option<nat>)
    decreases |prices|
    ensures r.Some? ==> r.value < |prices| && prices[r.value] > high
    ensures r.Some? ==> forall j :: 0 <= j < r.value ==> prices[j] <= high
    ensures r.None? ==> forall j :: 0 <= j < |prices| ==> prices[j] <= high
  {
    if prices == [] then None
    else if prices[0] > high then Some(0)
    else match BreakoutTrigger(high, prices[1..])
      case None => None
      case Some(k) => Some(k + 1)
  }

  /** Polls after the trigger are never looked at: extending the poll sequence keeps the trigger. */
  lemma {:induction false} BreakoutTriggerIgnoresLaterPolls(high: real, prices: seq<real>, later: seq<real>)
    requires BreakoutTrigger(high, prices).Some?
    decreases |prices|
    ensures BreakoutTrigger(high, prices + later) == BreakoutTrigger(high, prices)
  {
    if prices[0] > high {
    } else {
      assert (prices + later)[1..] == prices[1..] + later;
      BreakoutTriggerIgnoresLaterPolls(high, prices[1..], later);
    }
  }

  /** A price equal to the high does not fire; one strictly above it does. */
  lemma BreakoutBoundary()
    ensures BreakoutTrigger(100.00, [100.00]) == None
    ensures BreakoutTrigger(100.00, [100.00, 100.01]) == Some(1)
  {
  }

  // ---------------------------------------------------------------------
  // Moving-average crossover

  /** Short average strictly above the long one. */
  predicate Above(shortMa: real, longMa: real) {
    shortMa > longMa
  }

  /**
   * The averages the runner compares poll i against: the initial pair before the
   * first poll, afterwards those of the preceding poll (no trigger happened there).
   */
  function PreviousShort(initialShort: real, polls: seq<MaPoll>, i: nat): real
    requires i < |polls|
  {
    if i == 0 then initialShort else polls[i - 1].shortMa
  }

  function PreviousLong(initialLong: real, polls: seq<MaPoll>, i: nat): real
    requires i < |polls|
  {
    if i == 0 then initialLong else polls[i - 1].longMa
  }

  /** Poll i is a strict crossover: the relation flips from short <= long to short > long. */
  predicate CrossesAt(initialShort: real, initialLong: real, polls: seq<MaPoll>, i: nat)
    requires i < |polls|
  {
    Above(polls[i].shortMa, polls[i].longMa)
    && !Above(PreviousShort(initialShort, polls, i), PreviousLong(initialLong, polls, i))
  }

  /** The poll at which the crossover runner fires: the first strict crossover. */
  function CrossoverTrigger(initialShort: real, initialLong: real, polls: seq<MaPoll>): (r: Option<nat>)
    decreases |polls|
    ensures r.Some? ==> r.value < |polls| && CrossesAt(initialShort, initialLong, polls, r.value)
    ensures r.Some? ==> forall j :: 0 <= j < r.value ==> !CrossesAt(initialShort, initialLong, polls, j)
    ensures r.None? ==> forall j :: 0 <= j < |polls| ==> !CrossesAt(initialShort, initialLong, polls, j)
  {
    if polls == [] then None
    else if Above(polls[0].shortMa, polls[0].longMa) && !Above(initialShort, initialLong) then Some(0)
    else
      var rest := CrossoverTrigger(polls[0].shortMa, polls[0].longMa, polls[1..]);
      CrossesShift(initialShort, initialLong, polls);
      match rest
      case None => None
      case Some(k) => Some(k + 1)
  }

  /** Crossing at poll j > 0 is crossing at poll j - 1 of the remaining polls, seen from poll 0. */
  lemma CrossesShift(initialShort: real, initialLong: real, polls: seq<MaPoll>)
    requires polls != []
    ensures forall j :: 1 <= j < |polls| ==>
      (CrossesAt(initialShort, initialLong, polls, j)
       <==> CrossesAt(polls[0].shortMa, polls[0].longMa, polls[1..], j - 1))
  {
  }

  /** Staying above the long average never fires again: a crossover needs the previous poll at or below it. */
  lemma NoRetriggerWhileAbove(initialShort: real, initialLong: real, polls: seq<MaPoll>, i: nat)
    requires 0 < i < |polls|
    requires Above(polls[i - 1].shortMa, polls[i - 1].longMa)
    ensures !CrossesAt(initialShort, initialLong, polls, i)
  {
  }

  /**
   * Starting at or below the long average, the runner fires exactly at the first
   * poll whose short average is above the long one.
   */
  lemma {:induction false} FiresAtFirstAbove(initialShort: real, initialLong: real, polls: seq<MaPoll>, k: nat)
    requires !Above(initialShort, initialLong)
    requires k < |polls| && Above(polls[k].shortMa, polls[k].longMa)
    requires forall j :: 0 <= j < k ==> !Above(polls[j].shortMa, polls[j].longMa)
    ensures CrossoverTrigger(initialShort, initialLong, polls) == Some(k)
  {
    assert CrossesAt(initialShort, initialLong, polls, k);
    forall j | 0 <= j < k
      ensures !CrossesAt(initialShort, initialLong, polls, j)
    {
      assert !Above(polls[j].shortMa, polls[j].longMa);
    }
  }

  /** Polls after the crossover are never looked at. */
  lemma {:induction false} CrossoverTriggerIgnoresLaterPolls(
    initialShort: real, initialLong: real, polls: seq<MaPoll>, later: seq<MaPoll>)
    requires CrossoverTrigger(initialShort, initialLong, polls).Some?
    decreases |polls|
    ensures CrossoverTrigger(initialShort, initialLong, polls + later)
         == CrossoverTrigger(initialShort, initialLong, polls)
  {
    if Above(polls[0].shortMa, polls[0].longMa) && !Above(initialShort, initialLong) {
    } else {
      assert (polls + later)[0] == polls[0];
      assert (polls + later)[1..] == polls[1..] + later;
      CrossoverTriggerIgnoresLaterPolls(polls[0].shortMa, polls[0].longMa, polls[1..], later);
    }
  }

  /** Short/long 9/10, 11/10, 12/10 (after an initial 9/10) cross exactly once, at the second poll. */
  lemma CrossoverScenario()
    ensures var polls := [MaPoll(1.0, 9.0, 10.0), MaPoll(1.0, 11.0, 10.0), MaPoll(1.0, 12.0, 10.0)];
      && CrossoverTrigger(9.0, 10.0, polls) == Some(1)
      && !CrossesAt(9.0, 10.0, polls, 0) && !CrossesAt(9.0, 10.0, polls, 2)
  {
  }

  /** The order a crossover places: a limit buy at the price polled in the same iteration. */
  function CrossoverOrder(s: Strategy, price: real): (o: Order)
    ensures o.symbol == s.symbol && o.quantity == s.quantity
    ensures o.orderType == "limit" && o.action == "buy" && o.limitPrice == Some(price)
  {
    Order(s.symbol, s.quantity, "limit", "buy", Some(price))
  }

  // ---------------------------------------------------------------------
  // The ledger

  /** What one runner adds to the ledger: the broker's reply if an order was placed and accepted. */
  function Accepted(order: Option<Order>, placeOrder: Order -> Option<OrderResponse>): (added: seq<OrderResponse>)
    ensures |added| <= 1
    ensures |added| == 1 <==> order.Some? && placeOrder(order.value).Some?
    ensures |added| == 1 ==> added[0] == placeOrder(order.value).value
  {
    if order.Some? then
      match placeOrder(order.value)
      case Some(response) => [response]
      case None => []
    else []
  }

  class AutomatedTrading {
    /** The orders the broker accepted, in the order they were placed. */
    var tradeRecords: seq<OrderResponse>

    constructor ()
      ensures tradeRecords == []
    {
      tradeRecords := [];
    }

    /**
     * Starts the runner the strategy's kind selects and runs it over the feed;
     * an unknown kind places nothing and leaves the ledger alone.
     */
    method ExecuteStrategy(strategy: Strategy, feed: MarketFeed, placeOrder: Order -> Option<OrderResponse>)
      returns (runner: Runner, fired: Option<nat>, order: Option<Order>)
      modifies this
      ensures runner == Dispatch(strategy.kind)
      ensures runner == BreakoutRunner ==>
        fired == BreakoutTrigger(feed.nDaysHigh, feed.prices)
        && order == (if fired.Some? then Some(BreakoutOrder(strategy)) else None)
      ensures runner == CrossoverRunner ==>
        fired == CrossoverTrigger(feed.initialShort, feed.initialLong, feed.polls)
        && order == (if fired.Some? then Some(CrossoverOrder(strategy, feed.polls[fired.value].price)) else None)
      ensures runner == Unknown ==> fired.None? && order.None?
      ensures tradeRecords == old(tradeRecords) + Accepted(order, placeOrder)
    {
      runner := Dispatch(strategy.kind);
      match runner
      case BreakoutRunner =>
        fired, order := BreakoutBuy(strategy, feed.nDaysHigh, feed.prices, placeOrder);
      case CrossoverRunner =>
        fired, order := MovingAverageCrossover(strategy, feed.initialShort, feed.initialLong, feed.polls, placeOrder);
      case Unknown =>
        fired, order := None, None;
    }

    /**
     * Polls prices against the N-day high fetched once before polling; on the first
     * price strictly above it places one market buy, records an accepted reply, and stops.
     */
    method BreakoutBuy(strategy: Strategy, nDaysHigh: real, prices: seq<real>,
                       placeOrder: Order -> Option<OrderResponse>)
      returns (fired: Option<nat>, order: Option<Order>)
      modifies this
      ensures fired == BreakoutTrigger(nDaysHigh, prices)
      ensures order == if fired.Some? then Some(BreakoutOrder(strategy)) else None
      ensures tradeRecords == old(tradeRecords) + Accepted(order, placeOrder)
    {
      fired, order := None, None;
      var i := 0;
      while i < |prices|
        invariant 0 <= i <= |prices|
        invariant forall j :: 0 <= j < i ==> prices[j] <= nDaysHigh
        invariant fired.None? && order.None? && tradeRecords == old(tradeRecords)
        decreases |prices| - i
      {
        var realTimePrice := prices[i];
        if realTimePrice > nDaysHigh {
          var details := Order(strategy.symbol, strategy.quantity, "market", "buy", None);
          var response := placeOrder(details);
          if response.Some? {
            tradeRecords := tradeRecords + [response.value];
          }
          fired, order := Some(i), Some(details);
          break;
        }
        i := i + 1;
      }
    }

    /**
     * Keeps the previous short and long averages; on the first poll whose averages
     * cross strictly upward places one limit buy at that poll's price, records an
     * accepted reply, and stops. Otherwise the polled averages become the previous ones.
     */
    method MovingAverageCrossover(strategy: Strategy, initialShort: real, initialLong: real,
                                  polls: seq<MaPoll>, placeOrder: Order -> Option<OrderResponse>)
      returns (fired: Option<nat>, order: Option<Order>)
      modifies this
      ensures fired == CrossoverTrigger(initialShort, initialLong, polls)
      ensures order == if fired.Some? then Some(CrossoverOrder(strategy, polls[fired.value].price)) else None
      ensures tradeRecords == old(tradeRecords) + Accepted(order, placeOrder)
    {
      fired, order := None, None;
      var shortMa, longMa := initialShort, initialLong;
      var i := 0;
      while i < |polls|
        invariant 0 <= i <= |polls|
        invariant i < |polls| ==>
          (shortMa == PreviousShort(initialShort, polls, i) && longMa == PreviousLong(initialLong, polls, i))
        invariant forall j :: 0 <= j < i ==> !CrossesAt(initialShort, initialLong, polls, j)
        invariant fired.None? && order.None? && tradeRecords == old(tradeRecords)
        decreases |polls| - i
      {
        var realTimePrice := polls[i].price;
        var newShortMa, newLongMa := polls[i].shortMa, polls[i].longMa;
        if newShortMa > newLongMa && shortMa <= longMa {
          var details := Order(strategy.symbol, strategy.quantity, "limit", "buy", Some(realTimePrice));
          var response := placeOrder(details);
          if response.Some? {
            tradeRecords := tradeRecords + [response.value];
          }
          assert CrossesAt(initialShort, initialLong, polls, i);
          fired, order := Some(i), Some(details);
          break;
        }
        shortMa, longMa := newShortMa, newLongMa;
        i := i + 1;
      }
    }

    /**
     * Queries the status of every recorded order in insertion order and returns
     * the (id, status) pairs it logs; the ledger is not touched.
     */
    method MonitorOrders(getOrderStatus: string -> string) returns (log: seq<(string, string)>)
      ensures |log| == |tradeRecords|
      ensures forall i :: 0 <= i < |tradeRecords| ==>
        log[i] == (tradeRecords[i].orderId, getOrderStatus(tradeRecords[i].orderId))
    {
      log := [];
      for i := 0 to |tradeRecords|
        invariant |log| == i
        invariant forall j :: 0 <= j < i ==>
          log[j] == (tradeRecords[j].orderId, getOrderStatus(tradeRecords[j].orderId))
      {
        var orderId := tradeRecords[i].orderId;
        var status := getOrderStatus(orderId);
        log := log + [(orderId, status)];
      }
    }
  }

  /**
   * A fresh engine running a breakout with high 50 over prices 48, 49, 51 and a
   * broker that accepts: one market buy of quantity 10 at the third poll, one record.
   */
  method BreakoutScenario() returns (fired: Option<nat>, order: Option<Order>, ledger: seq<OrderResponse>)
    ensures fired == Some(2)
    ensures order.Some? && order.value.quantity == 10 && order.value.orderType == "market"
    ensures ledger == [OrderResponse("order-1")]
  {
    var engine := new AutomatedTrading();
    var strategy := Strategy("breakout", "BreakoutBuy", "X", 20, 0, 0, 10);
    assert BreakoutTrigger(50.0, [48.0, 49.0, 51.0]) == Some(2);
    fired, order := engine.BreakoutBuy(strategy, 50.0, [48.0, 49.0, 51.0], o => Some(OrderResponse("order-1")));
    ledger := engine.tradeRecords;
  }

  /** The same breakout against a broker that rejects the order: it fires, but the ledger stays empty. */
  method RejectedOrderScenario() returns (fired: Option<nat>, ledger: seq<OrderResponse>)
    ensures fired == Some(2)
    ensures ledger == []
  {
    var engine := new AutomatedTrading();
    var strategy := Strategy("breakout", "BreakoutBuy", "X", 20, 0, 0, 10);
    assert BreakoutTrigger(50.0, [48.0, 49.0, 51.0]) == Some(2);
    var order;
    fired, order := engine.BreakoutBuy(strategy, 50.0, [48.0, 49.0, 51.0], o => None);
    ledger := engine.tradeRecords;
  }
}
