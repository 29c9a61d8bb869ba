/** The backtest engine: the portfolio manager that splits the firm's capital across
    strategies and turns their signals (and stop-loss / take-profit exits) into orders,
    and the market simulator that settles the order queue against each strategy's cash
    and shares with slippage and transaction costs, replaying bars in order through a
    bounded rolling history. */
module Backtest {
  import opened Trading
  import opened Costs
  import opened AtlasStrategies

  datatype Bar = Bar(high: real, low: real, close: real)

  datatype Order = Order(id: StrategyId, side: Side, qty: int)

  /** A trade-log entry: execution price after slippage and the transaction cost. */
  datatype Fill = Fill(id: StrategyId, side: Side, qty: int, price: real, cost: real)

  datatype Simulator = Simulator(
    firm: seq<Strategy>,      // the portfolio manager's strategies, in registry order
    queue: seq<Order>,
    log: seq<Fill>,
    price: real,
    history: seq<Bar>)

  /** Indicator values as a function of a strategy's parameters and the history. */
  type Indicators = (Params, seq<Bar>) -> Reading

  const FirmCapital: real := 1000000.0

  /** Extra bars retained beyond the longest look-back window. */
  const HistorySlack: nat := 50

  /** Minimum look-back window, kept for ATR stability. */
  const MinLookback: nat := 20

  // ---------------------------------------------------------------------------
  // Portfolio bookkeeping
  // ---------------------------------------------------------------------------

  predicate Solvent(s: Strategy) {
    0.0 <= s.cash && 0 <= s.shares
  }

  predicate AllSolvent(ss: seq<Strategy>) {
    forall j | 0 <= j < |ss| :: Solvent(ss[j])
  }

  function Ids(ss: seq<Strategy>): (ids: seq<StrategyId>)
    ensures |ids| == |ss| && forall j | 0 <= j < |ss| :: ids[j] == ss[j].id
  {
    if ss == [] then [] else [ss[0].id] + Ids(ss[1..])
  }

  predicate DistinctIds(ss: seq<Strategy>) {
    forall i, j | 0 <= i < j < |ss| :: ss[i].id != ss[j].id
  }

  /** The position of a strategy id in the portfolio (dictionary lookup). */
  function IndexOf(ss: seq<Strategy>, id: StrategyId): (r: Option<nat>)
    ensures r.Some? ==> r.value < |ss| && ss[r.value].id == id
    ensures r.None? <==> id !in Ids(ss)
    ensures r.Some? ==> forall j | 0 <= j < r.value :: ss[j].id != id
  {
    if ss == [] then None
    else if ss[0].id == id then Some(0)
    else match IndexOf(ss[1..], id)
      case Some(k) => Some(k + 1)
      case None => None
  }

  function TotalCash(ss: seq<Strategy>): real {
    if ss == [] then 0.0 else ss[0].cash + TotalCash(ss[1..])
  }

  function TotalShares(ss: seq<Strategy>): int {
    if ss == [] then 0 else ss[0].shares + TotalShares(ss[1..])
  }

  /** `get_total_equity`: the sum of every strategy's marked-to-market equity. */
  function TotalEquity(ss: seq<Strategy>, price: real): real {
    if ss == [] then 0.0 else Equity(ss[0], price) + TotalEquity(ss[1..], price)
  }

  /** Firm equity splits into the firm's total cash plus its total shares marked at the
      price. */
  lemma {:induction false} TotalEquitySplit(ss: seq<Strategy>, price: real)
    ensures TotalEquity(ss, price) == TotalCash(ss) + TotalShares(ss) as real * price
  {
    if ss != [] {
      TotalEquitySplit(ss[1..], price);
      assert (ss[0].shares + TotalShares(ss[1..])) as real * price
          == ss[0].shares as real * price + TotalShares(ss[1..]) as real * price;
    }
  }

  lemma {:induction false} TotalCashUpdate(ss: seq<Strategy>, j: nat, s: Strategy)
    requires j < |ss|
    ensures TotalCash(ss[j := s]) == TotalCash(ss) - ss[j].cash + s.cash
    ensures TotalShares(ss[j := s]) == TotalShares(ss) - ss[j].shares + s.shares
  {
    if j > 0 {
      assert ss[j := s][1..] == ss[1..][j - 1 := s];
      TotalCashUpdate(ss[1..], j - 1, s);
    }
  }

  lemma {:induction false} TotalCashUniform(ss: seq<Strategy>, c: real)
    requires forall j | 0 <= j < |ss| :: ss[j].cash == c
    ensures TotalCash(ss) == |ss| as real * c
  {
    if ss != [] {
      TotalCashUniform(ss[1..], c);
    }
  }

  /** With no shares held, equity is cash whatever the price. */
  lemma {:induction false} FlatBookEquity(ss: seq<Strategy>, price: real)
    requires forall j | 0 <= j < |ss| :: ss[j].shares == 0
    ensures TotalEquity(ss, price) == TotalCash(ss)
  {
    if ss != [] {
      FlatBookEquity(ss[1..], price);
    }
  }

  /** `_rebalance_capital`: every strategy receives an equal share of the capital and
      drops its shares; with no strategies nothing happens. */
  function Rebalance(firm: seq<Strategy>, capital: real): (r: seq<Strategy>)
    ensures |r| == |firm|
    ensures |firm| == 0 ==> r == firm
    ensures forall j | 0 <= j < |r| ::
              && r[j].id == firm[j].id && r[j].params == firm[j].params
              && r[j].stopLoss == firm[j].stopLoss && r[j].takeProfit == firm[j].takeProfit
              && r[j].cash == capital / |firm| as real && r[j].shares == 0
  {
    if |firm| == 0 then firm
    else seq(|firm|, j requires 0 <= j < |firm| => SetCapital(firm[j], capital / |firm| as real))
  }

  /** The split conserves the firm's capital: total cash, and total equity at any
      price, equal the capital afterwards. */
  lemma RebalanceConservesCapital(firm: seq<Strategy>, capital: real, price: real)
    requires |firm| > 0
    ensures TotalCash(Rebalance(firm, capital)) == capital
    ensures TotalEquity(Rebalance(firm, capital), price) == capital
    ensures 0.0 <= capital ==> AllSolvent(Rebalance(firm, capital))
  {
    var r := Rebalance(firm, capital);
    TotalCashUniform(r, capital / |firm| as real);
    FlatBookEquity(r, price);
  }

  /** `PortfolioManager.__init__`: one strategy per configured family, in registry order
      (trend first), followed by the capital split. */
  function NewPortfolio(trend: Option<Params>, meanRev: Option<Params>, capital: real): (firm: seq<Strategy>)
    requires trend.Some? ==> trend.value.TrendParams?
    requires meanRev.Some? ==> meanRev.value.MeanRevParams?
    ensures |firm| == (if trend.Some? then 1 else 0) + (if meanRev.Some? then 1 else 0)
    ensures DistinctIds(firm)
    ensures trend.Some? ==> firm[0].id == "Trend" && firm[0].params == trend.value
    ensures meanRev.Some? ==> firm[|firm| - 1].id == "MeanReversion" && firm[|firm| - 1].params == meanRev.value
    ensures forall j | 0 <= j < |firm| :: !ExitsArmed(firm[j]) && firm[j].shares == 0
    ensures forall j | 0 <= j < |firm| :: firm[j].cash == capital / |firm| as real
    ensures |firm| > 0 ==> TotalCash(firm) == capital
  {
    var t := if trend.Some? then [NewStrategy("Trend", trend.value)] else [];
    var m := if meanRev.Some? then [NewStrategy("MeanReversion", meanRev.value)] else [];
    var firm := Rebalance(t + m, capital);
    if |firm| > 0 then RebalanceConservesCapital(t + m, capital, 0.0); firm else firm
  }

  // ---------------------------------------------------------------------------
  // Order queue and settlement
  // ---------------------------------------------------------------------------

  /** `submit_order`: non-positive quantities are dropped. */
  function SubmitOrder(queue: seq<Order>, id: StrategyId, side: Side, qty: int): (q: seq<Order>)
    ensures qty > 0 ==> q == queue + [Order(id, side, qty)]
    ensures qty <= 0 ==> q == queue
  {
    if qty > 0 then queue + [Order(id, side, qty)] else queue
  }

  /** Every queued order names a strategy of the portfolio and a positive quantity. */
  predicate ValidQueue(firm: seq<Strategy>, queue: seq<Order>) {
    forall k | 0 <= k < |queue| :: queue[k].id in Ids(firm) && queue[k].qty > 0
  }

  /** Cash a fill moves into (positive) or out of (negative) its strategy. */
  function CashDelta(f: Fill): real {
    match f.side
    case Buy => -(f.qty as real * f.price + f.cost)
    case Sell => f.qty as real * f.price - f.cost
  }

  function ShareDelta(f: Fill): int {
    match f.side
    case Buy => f.qty
    case Sell => -f.qty
  }

  function NetCash(fills: seq<Fill>): real {
    if fills == [] then 0.0 else CashDelta(fills[0]) + NetCash(fills[1..])
  }

  function NetShares(fills: seq<Fill>): int {
    if fills == [] then 0 else ShareDelta(fills[0]) + NetShares(fills[1..])
  }

  lemma {:induction false} NetConcat(a: seq<Fill>, b: seq<Fill>)
    ensures NetCash(a + b) == NetCash(a) + NetCash(b)
    ensures NetShares(a + b) == NetShares(a) + NetShares(b)
  {
    if a == [] {
      assert a + b == b;
    } else {
      assert (a + b)[1..] == a[1..] + b;
      NetConcat(a[1..], b);
    }
  }

  datatype Settlement = Settlement(strategy: Strategy, fill: Option<Fill>)

  /** The buy guard: cash must cover notional plus costs at the slipped price. */
  predicate BuyAffordable(s: Strategy, qty: int, price: real) {
    var value := qty as real * ExecutionPrice(price, Buy);
    s.cash >= value + TransactionCost(value, Buy)
  }

  /** Settles one order against its strategy at the bar's price. A settled order moves
      cash and shares exactly as its fill records; a failed one changes nothing. */
  function Settle(s: Strategy, o: Order, price: real): (r: Settlement)
    ensures o.side == Buy ==> (r.fill.Some? <==> BuyAffordable(s, o.qty, price))
    ensures o.side == Sell ==> (r.fill.Some? <==> s.shares >= o.qty)
    ensures r.fill.None? ==> r.strategy == s
    ensures r.fill.Some? ==>
              var p := ExecutionPrice(price, o.side);
              && r.fill.value == Fill(o.id, o.side, o.qty, p, TransactionCost(o.qty as real * p, o.side))
              && r.strategy == s.(cash := s.cash + CashDelta(r.fill.value),
                                  shares := s.shares + ShareDelta(r.fill.value))
  {
    var p := ExecutionPrice(price, o.side);
    var value := o.qty as real * p;
    var cost := TransactionCost(value, o.side);
    match o.side
    case Buy =>
      if s.cash >= value + cost then
        Settlement(s.(shares := s.shares + o.qty, cash := s.cash - (value + cost)),
                   Some(Fill(o.id, Buy, o.qty, p, cost)))
      else Settlement(s, None)
    case Sell =>
      if s.shares >= o.qty then
        Settlement(s.(shares := s.shares - o.qty, cash := s.cash + (value - cost)),
                   Some(Fill(o.id, Sell, o.qty, p, cost)))
      else Settlement(s, None)
  }

  /** Settlement never drives a solvent strategy's cash or shares negative, provided the
      price is non-negative and the order quantity positive (as `submit_order` ensures). */
  lemma SettleKeepsSolvency(s: Strategy, o: Order, price: real)
    requires Solvent(s) && 0.0 <= price && o.qty > 0
    ensures Solvent(Settle(s, o, price).strategy)
  {
    var p := ExecutionPrice(price, o.side);
    var value := o.qty as real * p;
    MulNonNegative(o.qty as real, p);
    assert 0.0 <= value;
  }

  lemma MulNonNegative(a: real, b: real)
    requires 0.0 <= a && 0.0 <= b
    ensures 0.0 <= a * b
  {
  }

  /** Settles one queued order against the strategy it names, inside the portfolio. */
  function SettleInto(firm: seq<Strategy>, o: Order, price: real): (r: (seq<Strategy>, seq<Fill>))
    requires o.id in Ids(firm)
    ensures Ids(r.0) == Ids(firm)
    ensures forall j | 0 <= j < |firm| ::
              r.0[j].params == firm[j].params
              && r.0[j].stopLoss == firm[j].stopLoss && r.0[j].takeProfit == firm[j].takeProfit
    ensures |r.1| <= 1
    ensures 0.0 <= price && AllSolvent(firm) && o.qty > 0 ==> AllSolvent(r.0)
    ensures TotalCash(r.0) == TotalCash(firm) + NetCash(r.1)
    ensures TotalShares(r.0) == TotalShares(firm) + NetShares(r.1)
  {
    var j := IndexOf(firm, o.id).value;
    var st := Settle(firm[j], o, price);
    var firm1 := firm[j := st.strategy];
    assert Ids(firm1) == Ids(firm);
    TotalCashUpdate(firm, j, st.strategy);
    var fills := if st.fill.Some? then [st.fill.value] else [];
    assert st.strategy.cash == firm[j].cash + NetCash(fills);
    assert st.strategy.shares == firm[j].shares + NetShares(fills);
    if 0.0 <= price && AllSolvent(firm) && o.qty > 0 then
      SettleKeepsSolvency(firm[j], o, price);
      (firm1, fills)
    else (firm1, fills)
  }

  /** Settles orders in submission order; returns the strategies and the new fills. */
  function Process(firm: seq<Strategy>, orders: seq<Order>, price: real): (r: (seq<Strategy>, seq<Fill>))
    requires ValidQueue(firm, orders)
    ensures Ids(r.0) == Ids(firm)
    ensures forall j | 0 <= j < |firm| ::
              r.0[j].params == firm[j].params
              && r.0[j].stopLoss == firm[j].stopLoss && r.0[j].takeProfit == firm[j].takeProfit
    ensures |r.1| <= |orders|
    ensures 0.0 <= price && AllSolvent(firm) ==> AllSolvent(r.0)
    ensures TotalCash(r.0) == TotalCash(firm) + NetCash(r.1)
    ensures TotalShares(r.0) == TotalShares(firm) + NetShares(r.1)
    decreases |orders|
  {
    if orders == [] then (firm, [])
    else
      var step := SettleInto(firm, orders[0], price);
      assert ValidQueue(step.0, orders[1..]) by {
        forall k | 0 <= k < |orders| - 1 ensures orders[1..][k] == orders[k + 1] { }
      }
      var rest := Process(step.0, orders[1..], price);
      NetConcat(step.1, rest.1);
      (rest.0, step.1 + rest.1)
  }

  /** `execute_orders`: drains the queue in submission order, appending one fill per
      settled order to the trade log. Cash and shares move exactly by the new fills. */
  function ExecuteOrders(sim: Simulator): (r: Simulator)
    requires ValidQueue(sim.firm, sim.queue)
    ensures r.queue == [] && r.price == sim.price && r.history == sim.history
    ensures Ids(r.firm) == Ids(sim.firm)
    ensures |sim.log| <= |r.log| <= |sim.log| + |sim.queue| && r.log[..|sim.log|] == sim.log
    ensures 0.0 <= sim.price && AllSolvent(sim.firm) ==> AllSolvent(r.firm)
    ensures TotalCash(r.firm) == TotalCash(sim.firm) + NetCash(r.log[|sim.log|..])
    ensures TotalShares(r.firm) == TotalShares(sim.firm) + NetShares(r.log[|sim.log|..])
    ensures sim.queue == [] ==> r == sim
  {
    var p := Process(sim.firm, sim.queue, sim.price);
    assert (sim.log + p.1)[|sim.log|..] == p.1;
    sim.(firm := p.0, queue := [], log := sim.log + p.1)
  }

  /** Settles a strategy's own orders, in order, against it alone. */
  function SettleAll(s: Strategy, orders: seq<Order>, price: real): Strategy
    decreases |orders|
  {
    if orders == [] then s else SettleAll(Settle(s, orders[0], price).strategy, orders[1..], price)
  }

  function OrdersOf(orders: seq<Order>, id: StrategyId): (r: seq<Order>)
    ensures forall o | o in r :: o in orders && o.id == id
  {
    if orders == [] then []
    else (if orders[0].id == id then [orders[0]] else []) + OrdersOf(orders[1..], id)
  }

  /** Settlement is per strategy and in submission order: each strategy ends exactly as
      if its own orders had been settled alone, oldest first. */
  lemma {:induction false} ProcessIsPerStrategy(firm: seq<Strategy>, orders: seq<Order>, price: real, j: nat)
    requires ValidQueue(firm, orders) && DistinctIds(firm) && j < |firm|
    ensures Process(firm, orders, price).0[j] == SettleAll(firm[j], OrdersOf(orders, firm[j].id), price)
    decreases |orders|
  {
    if orders != [] {
      var o := orders[0];
      var k := IndexOf(firm, o.id).value;
      var st := Settle(firm[k], o, price);
      var firm1 := SettleInto(firm, o, price).0;
      assert firm1 == firm[k := st.strategy];
      assert ValidQueue(firm1, orders[1..]) by {
        forall k | 0 <= k < |orders| - 1 ensures orders[1..][k] == orders[k + 1] { }
      }
      assert DistinctIds(firm1) by {
        forall a, b | 0 <= a < b < |firm1| ensures firm1[a].id != firm1[b].id {
          assert firm1[a].id == Ids(firm1)[a] == Ids(firm)[a];
          assert firm1[b].id == Ids(firm1)[b] == Ids(firm)[b];
        }
      }
      ProcessIsPerStrategy(firm1, orders[1..], price, j);
      assert firm1[j].id == firm[j].id by { assert Ids(firm1)[j] == Ids(firm)[j]; }
      if k == j {
        assert OrdersOf(orders, firm[j].id) == [o] + OrdersOf(orders[1..], firm[j].id);
      } else {
        assert o.id != firm[j].id;
        assert OrdersOf(orders, firm[j].id) == OrdersOf(orders[1..], firm[j].id);
      }
    }
  }

  // ---------------------------------------------------------------------------
  // Daily operations: exits first, then strategy logic
  // ---------------------------------------------------------------------------

  predicate StopLossHit(s: Strategy, price: real) {
    s.shares > 0 && s.stopLoss > 0.0 && price <= s.stopLoss
  }

  predicate TakeProfitHit(s: Strategy, price: real) {
    s.shares > 0 && s.takeProfit > 0.0 && price >= s.takeProfit
  }

  /** The orders one strategy may add in a cycle: none, or one positive order for its own
      id that sells the whole position or buys from flat. */
  predicate OneOrderFrom(s: Strategy, queue: seq<Order>, q: seq<Order>) {
    && |queue| <= |q| <= |queue| + 1 && q[..|queue|] == queue
    && (|q| == |queue| + 1 ==>
          var o := q[|queue|];
          && o.id == s.id && o.qty > 0
          && (o.side == Sell ==> o.qty == s.shares)
          && (o.side == Buy ==> s.shares == 0))
  }

  /** One strategy's part of `run_daily_operations`. A triggered stop-loss (checked
      first) or take-profit sells the whole position, clears the exits and skips the
      strategy's own logic; otherwise a BUY with positive quantity or a SELL while
      holding becomes an order. */
  function OperateOne(s: Strategy, price: real, history: seq<Bar>, read: Indicators, queue: seq<Order>)
    : (r: (Strategy, seq<Order>))
    ensures SameBook(r.0, s)
    ensures OneOrderFrom(s, queue, r.1)
    ensures StopLossHit(s, price) ==> r == (ClearExits(s), queue + [Order(s.id, Sell, s.shares)])
    ensures !StopLossHit(s, price) && TakeProfitHit(s, price) ==>
              r == (ClearExits(s), queue + [Order(s.id, Sell, s.shares)])
    ensures !StopLossHit(s, price) && !TakeProfitHit(s, price) ==>
              var d := DecideAction(s, |history|, price, read(s.params, history));
              && r.0 == d.strategy
              && r.1 == queue + (if d.signal == BuySignal && d.quantity > 0 then [Order(s.id, Buy, d.quantity)]
                                 else if d.signal == SellSignal && s.shares > 0 then [Order(s.id, Sell, s.shares)]
                                 else [])
  {
    if StopLossHit(s, price) then
      (ClearExits(s), SubmitOrder(queue, s.id, Sell, s.shares))
    else if TakeProfitHit(s, price) then
      (ClearExits(s), SubmitOrder(queue, s.id, Sell, s.shares))
    else
      var d := DecideAction(s, |history|, price, read(s.params, history));
      if d.signal == BuySignal && d.quantity > 0 then
        (d.strategy, SubmitOrder(queue, s.id, Buy, d.quantity))
      else if d.signal == SellSignal && d.strategy.shares > 0 then
        (d.strategy, SubmitOrder(queue, s.id, Sell, d.strategy.shares))
      else (d.strategy, queue)
  }

  /** A strategy that holds shares never submits a buy. */
  lemma HoldingNeverBuys(s: Strategy, price: real, history: seq<Bar>, read: Indicators, queue: seq<Order>)
    requires s.shares > 0
    ensures var q := OperateOne(s, price, history, read, queue).1;
            forall o | o in q[|queue|..] :: o.side == Sell && o.qty == s.shares
  {
  }

  /** What one strategy does in a cycle on its own: its new state and the orders it
      submits to an empty queue. */
  function OperateAlone(s: Strategy, price: real, history: seq<Bar>, read: Indicators): (Strategy, seq<Order>) {
    OperateOne(s, price, history, read, [])
  }

  /** A strategy's decision does not depend on the orders already queued. */
  lemma OperateOneAnyQueue(s: Strategy, price: real, history: seq<Bar>, read: Indicators, queue: seq<Order>)
    ensures var alone := OperateAlone(s, price, history, read);
            OperateOne(s, price, history, read, queue) == (alone.0, queue + alone.1)
  {
  }

  /** The strategies, in order, each act on the same price and history, appending to the
      queue; `OperateIsPerStrategy` and `OperateOrdersPerStrategy` say what each adds. */
  function Operate(ss: seq<Strategy>, price: real, history: seq<Bar>, read: Indicators, queue: seq<Order>)
    : (r: (seq<Strategy>, seq<Order>))
    ensures |r.0| == |ss| && forall j | 0 <= j < |ss| :: SameBook(r.0[j], ss[j])
    ensures |queue| <= |r.1| <= |queue| + |ss| && r.1[..|queue|] == queue
    ensures forall k | |queue| <= k < |r.1| :: r.1[k].id in Ids(ss) && r.1[k].qty > 0
  {
    if ss == [] then ([], queue)
    else
      var one := OperateOne(ss[0], price, history, read, queue);
      var rest := Operate(ss[1..], price, history, read, one.1);
      assert Ids(ss) == [ss[0].id] + Ids(ss[1..]);
      assert rest.1[..|queue|] == queue by {
        assert rest.1[..|queue|] == rest.1[..|one.1|][..|queue|];
      }
      assert forall k | |queue| <= k < |one.1| :: rest.1[k] == one.1[k] by {
        forall k | |queue| <= k < |one.1| ensures rest.1[k] == one.1[k] {
          assert rest.1[..|one.1|][k] == rest.1[k];
        }
      }
      ([one.0] + rest.0, rest.1)
  }

  /** Every strategy ends the day as it would acting alone. */
  lemma {:induction false} OperateIsPerStrategy(ss: seq<Strategy>, price: real, history: seq<Bar>, read: Indicators,
                                                queue: seq<Order>)
    ensures forall j | 0 <= j < |ss| :: Operate(ss, price, history, read, queue).0[j] == OperateAlone(ss[j], price, history, read).0
  {
    if ss != [] {
      var one := OperateOne(ss[0], price, history, read, queue);
      OperateOneAnyQueue(ss[0], price, history, read, queue);
      OperateIsPerStrategy(ss[1..], price, history, read, one.1);
      forall j | 1 <= j < |ss|
        ensures Operate(ss, price, history, read, queue).0[j] == OperateAlone(ss[j], price, history, read).0
      {
        assert ss[1..][j - 1] == ss[j];
      }
    }
  }

  /** With distinct ids, the orders a strategy adds to the queue are exactly those it
      would submit alone: at most one per strategy, and none under another's id. */
  lemma {:induction false} OperateOrdersPerStrategy(ss: seq<Strategy>, price: real, history: seq<Bar>, read: Indicators,
                                                    queue: seq<Order>)
    requires DistinctIds(ss)
    ensures forall j | 0 <= j < |ss| ::
              OrdersOf(Operate(ss, price, history, read, queue).1[|queue|..], ss[j].id) == OperateAlone(ss[j], price, history, read).1
  {
    if ss != [] {
      var one := OperateOne(ss[0], price, history, read, queue);
      var rest := Operate(ss[1..], price, history, read, one.1);
      OperateOneAnyQueue(ss[0], price, history, read, queue);
      OperateOrdersPerStrategy(ss[1..], price, history, read, one.1);
      OperateOrdersSplit(ss, OperateAlone(ss[0], price, history, read).1, queue, one.1, rest.1);
      forall j | 1 <= j < |ss|
        ensures OrdersOf(rest.1[|queue|..], ss[j].id) == OperateAlone(ss[j], price, history, read).1
      {
        assert ss[1..][j - 1] == ss[j];
      }
    }
  }

  /** The induction step of `Operate`'s order statement: the first strategy's own orders
      followed by orders of the others only. */
  lemma OperateOrdersSplit(ss: seq<Strategy>, own: seq<Order>, queue: seq<Order>, q1: seq<Order>, q2: seq<Order>)
    requires ss != [] && DistinctIds(ss)
    requires q1 == queue + own && forall o | o in own :: o.id == ss[0].id
    requires |q1| <= |q2| && q2[..|q1|] == q1
    requires forall k | |q1| <= k < |q2| :: q2[k].id in Ids(ss[1..])
    ensures OrdersOf(q2[|queue|..], ss[0].id) == own
    ensures forall j | 1 <= j < |ss| :: OrdersOf(q2[|queue|..], ss[j].id) == OrdersOf(q2[|q1|..], ss[j].id)
  {
    var tail := q2[|q1|..];
    assert q2[|queue|..] == own + tail by {
      assert q2[|queue|..|q1|] == q1[|queue|..] == own;
    }
    assert forall k | 0 <= k < |tail| :: tail[k].id in Ids(ss[1..]) by {
      forall k | 0 <= k < |tail| ensures tail[k].id in Ids(ss[1..]) {
        assert tail[k] == q2[|q1| + k];
      }
    }
    HeadNotInTail(ss);
    OrdersOfOwnFirst(own, tail, ss[0].id, Ids(ss[1..]));
    forall j | 1 <= j < |ss| ensures OrdersOf(own + tail, ss[j].id) == OrdersOf(tail, ss[j].id) {
      OrdersOfOthers(own, tail, ss[0].id, ss[j].id);
    }
  }

  /** In a portfolio of distinct ids, the first id occurs nowhere after it. */
  lemma HeadNotInTail(ss: seq<Strategy>)
    requires ss != [] && DistinctIds(ss)
    ensures ss[0].id !in Ids(ss[1..])
  {
    forall m | 0 <= m < |ss| - 1 ensures Ids(ss[1..])[m] != ss[0].id {
      assert ss[1..][m] == ss[m + 1];
    }
  }

  /** Orders all of one id, followed by orders of other ids: that id's orders are the
      first part. */
  lemma OrdersOfOwnFirst(own: seq<Order>, tail: seq<Order>, id: StrategyId, others: seq<StrategyId>)
    requires forall o | o in own :: o.id == id
    requires forall k | 0 <= k < |tail| :: tail[k].id in others
    requires id !in others
    ensures OrdersOf(own + tail, id) == own
  {
    OrdersOfConcat(own, tail, id);
    OrdersOfAll(own, id);
    OrdersOfNone(tail, id);
  }

  /** Orders of one id contribute nothing to another id's orders. */
  lemma OrdersOfOthers(own: seq<Order>, tail: seq<Order>, id: StrategyId, other: StrategyId)
    requires forall o | o in own :: o.id == id
    requires other != id
    ensures OrdersOf(own + tail, other) == OrdersOf(tail, other)
  {
    OrdersOfConcat(own, tail, other);
    OrdersOfNone(own, other);
  }

  lemma {:induction false} OrdersOfConcat(a: seq<Order>, b: seq<Order>, id: StrategyId)
    ensures OrdersOf(a + b, id) == OrdersOf(a, id) + OrdersOf(b, id)
  {
    if a != [] {
      assert (a + b)[1..] == a[1..] + b;
      OrdersOfConcat(a[1..], b, id);
    } else {
      assert a + b == b;
    }
  }

  lemma {:induction false} OrdersOfAll(a: seq<Order>, id: StrategyId)
    requires forall o | o in a :: o.id == id
    ensures OrdersOf(a, id) == a
  {
    if a != [] {
      OrdersOfAll(a[1..], id);
    }
  }

  lemma {:induction false} OrdersOfNone(a: seq<Order>, id: StrategyId)
    requires forall k | 0 <= k < |a| :: a[k].id != id
    ensures OrdersOf(a, id) == []
  {
    if a != [] {
      OrdersOfNone(a[1..], id);
    }
  }

  lemma {:induction false} SameBooksKeepIds(a: seq<Strategy>, b: seq<Strategy>)
    requires |a| == |b| && forall j | 0 <= j < |a| :: SameBook(a[j], b[j])
    ensures Ids(a) == Ids(b) && TotalCash(a) == TotalCash(b) && TotalShares(a) == TotalShares(b)
    ensures AllSolvent(a) <==> AllSolvent(b)
  {
    if a != [] {
      SameBooksKeepIds(a[1..], b[1..]);
    }
  }

  /** `run_daily_operations`: every strategy, in order, adds at most one order; only
      exit prices change in the strategies. */
  function RunDailyOperations(sim: Simulator, read: Indicators): (r: Simulator)
    requires ValidQueue(sim.firm, sim.queue)
    ensures ValidQueue(r.firm, r.queue)
    ensures Ids(r.firm) == Ids(sim.firm) && TotalCash(r.firm) == TotalCash(sim.firm)
    ensures AllSolvent(r.firm) <==> AllSolvent(sim.firm)
    ensures |sim.queue| <= |r.queue| <= |sim.queue| + |sim.firm| && r.queue[..|sim.queue|] == sim.queue
    ensures r.log == sim.log && r.price == sim.price && r.history == sim.history
    ensures forall j | 0 <= j < |sim.firm| :: r.firm[j] == OperateAlone(sim.firm[j], sim.price, sim.history, read).0
    ensures DistinctIds(sim.firm) ==>
              forall j | 0 <= j < |sim.firm| ::
                OrdersOf(r.queue[|sim.queue|..], sim.firm[j].id) == OperateAlone(sim.firm[j], sim.price, sim.history, read).1
  {
    var op := Operate(sim.firm, sim.price, sim.history, read, sim.queue);
    SameBooksKeepIds(op.0, sim.firm);
    OperateIsPerStrategy(sim.firm, sim.price, sim.history, read, sim.queue);
    assert ValidQueue(op.0, op.1) by {
      forall k | 0 <= k < |sim.queue| ensures op.1[k] == sim.queue[k] {
        assert op.1[..|sim.queue|][k] == op.1[k];
      }
    }
    if DistinctIds(sim.firm) then
      OperateOrdersPerStrategy(sim.firm, sim.price, sim.history, read, sim.queue);
      sim.(firm := op.0, queue := op.1)
    else
    sim.(firm := op.0, queue := op.1)
  }

  // ---------------------------------------------------------------------------
  // Replay of the bar series
  // ---------------------------------------------------------------------------

  /** Look-back a strategy declares: its long/plain window and its RSI window. */
  function Lookback(p: Params): nat {
    match p
    case TrendParams(_, longWindow, rsiWindow, _, _, _) => if longWindow >= rsiWindow then longWindow else rsiWindow
    case MeanRevParams(window, _, rsiWindow, _, _, _) => if window >= rsiWindow then window else rsiWindow
  }

  /** The simulation's warm-up window: the largest look-back, and at least 20. */
  function MaxLookback(firm: seq<Strategy>): (w: nat)
    ensures MinLookback <= w
    ensures forall j | 0 <= j < |firm| :: Lookback(firm[j].params) <= w
    ensures w == MinLookback || exists j | 0 <= j < |firm| :: w == Lookback(firm[j].params)
  {
    if firm == [] then MinLookback
    else
      var rest := MaxLookback(firm[1..]);
      var here := Lookback(firm[0].params);
      if here >= rest then here else rest
  }

  /** Appends a bar and drops the oldest one once the buffer exceeds its capacity. */
  function PushBar(history: seq<Bar>, bar: Bar, cap: nat): seq<Bar> {
    var h := history + [bar];
    if |h| > cap then h[1..] else h
  }

  /** Below capacity the bar is appended; at or above it the oldest bar makes way, so a
      history within capacity stays within it and the new bar is always last. */
  lemma PushBarShape(history: seq<Bar>, bar: Bar, cap: nat)
    ensures var h := PushBar(history, bar, cap);
            && (|history| < cap ==> h == history + [bar])
            && (0 < cap <= |history| ==> h == history[1..] + [bar])
            && (0 < cap && |history| <= cap ==> |h| <= cap)
  {
    if 0 < cap <= |history| {
      assert (history + [bar])[1..] == history[1..] + [bar];
    }
  }

  /** The last `min(i, cap)` bars before index `i`. */
  function Window(bars: seq<Bar>, i: nat, cap: nat): seq<Bar>
    requires i <= |bars|
  {
    bars[i - Min(i, cap)..i]
  }

  /** The rolling history is exactly the trailing window of the bars seen so far. */
  lemma PushBarSlides(bars: seq<Bar>, i: nat, cap: nat)
    requires i < |bars| && 0 < cap
    ensures PushBar(Window(bars, i, cap), bars[i], cap) == Window(bars, i + 1, cap)
    ensures |Window(bars, i + 1, cap)| <= cap
  {
    var h := Window(bars, i, cap) + [bars[i]];
    assert h == bars[i - Min(i, cap)..i + 1];
  }

  /** One active bar: strategies act on the current price and history, then the queue
      settles. */
  function Cycle(sim: Simulator, read: Indicators): (r: Simulator)
    requires sim.queue == []
    ensures r.queue == [] && r.price == sim.price && r.history == sim.history
    ensures Ids(r.firm) == Ids(sim.firm)
    ensures |sim.log| <= |r.log| && r.log[..|sim.log|] == sim.log
    ensures 0.0 <= sim.price && AllSolvent(sim.firm) ==> AllSolvent(r.firm)
  {
    ExecuteOrders(RunDailyOperations(sim, read))
  }

  /** With distinct ids, a cycle is per strategy: each strategy ends as its own decision
      on the bar followed by the settlement of the orders that decision submitted. */
  lemma CycleIsPerStrategy(sim: Simulator, read: Indicators, j: nat)
    requires sim.queue == [] && DistinctIds(sim.firm) && j < |sim.firm|
    ensures var alone := OperateAlone(sim.firm[j], sim.price, sim.history, read);
            |Cycle(sim, read).firm| == |sim.firm| &&
            Cycle(sim, read).firm[j] == SettleAll(alone.0, alone.1, sim.price)
  {
    var day := RunDailyOperations(sim, read);
    SameBooksKeepIds(day.firm, sim.firm);
    assert day.firm[j].id == sim.firm[j].id;
    assert day.queue[|sim.queue|..] == day.queue;
    ProcessIsPerStrategy(day.firm, day.queue, sim.price, j);
  }

  /** A new bar: its close becomes the price and it slides into the history. */
  function Advance(sim: Simulator, bars: seq<Bar>, i: nat, cap: nat): (r: Simulator)
    requires i < |bars| && 0 < cap && sim.history == Window(bars, i, cap)
    ensures r == sim.(price := bars[i].close, history := Window(bars, i + 1, cap))
  {
    PushBarSlides(bars, i, cap);
    sim.(price := bars[i].close, history := PushBar(sim.history, bars[i], cap))
  }

  datatype RunState = RunState(sim: Simulator, curve: seq<real>)

  /** Replays bars `i..` (the loop of `run`): each bar sets the price and slides the
      history; from index `w - 1` on, strategies act, the queue settles and one equity
      point is recorded. */
  function RunFrom(sim: Simulator, bars: seq<Bar>, i: nat, w: nat, read: Indicators): (r: RunState)
    requires i <= |bars| && 0 < w
    requires sim.queue == [] && sim.history == Window(bars, i, w + HistorySlack)
    ensures r.sim.queue == [] && r.sim.history == Window(bars, |bars|, w + HistorySlack)
    ensures |r.curve| == ActiveBars(|bars|, i, w)
    decreases |bars| - i
  {
    if i == |bars| then RunState(sim, [])
    else
      var sim1 := Advance(sim, bars, i, w + HistorySlack);
      if i + 1 >= w then
        var sim2 := Cycle(sim1, read);
        var rest := RunFrom(sim2, bars, i + 1, w, read);
        RunState(rest.sim, [TotalEquity(sim2.firm, sim2.price)] + rest.curve)
      else
        RunFrom(sim1, bars, i + 1, w, read)
  }

  /** A replay of at least one bar ends at the last close. */
  lemma {:induction false} RunFromEndPrice(sim: Simulator, bars: seq<Bar>, i: nat, w: nat, read: Indicators)
    requires i <= |bars| && 0 < w
    requires sim.queue == [] && sim.history == Window(bars, i, w + HistorySlack)
    ensures i < |bars| ==> RunFrom(sim, bars, i, w, read).sim.price == bars[|bars| - 1].close
    decreases |bars| - i, 1
  {
    if i < |bars| {
      if i + 1 >= w {
        ActiveEndPrice(sim, bars, i, w, read);
      } else {
        var sim1 := Advance(sim, bars, i, w + HistorySlack);
        assert RunFrom(sim, bars, i, w, read) == RunFrom(sim1, bars, i + 1, w, read);
        if i + 1 == |bars| {
          assert RunFrom(sim1, bars, i + 1, w, read).sim == sim1;
        } else {
          RunFromEndPrice(sim1, bars, i + 1, w, read);
        }
      }
    }
  }

  /** The active case of `RunFromEndPrice`: a cycle keeps the bar's close as the price. */
  lemma {:induction false} ActiveEndPrice(sim: Simulator, bars: seq<Bar>, i: nat, w: nat, read: Indicators)
    requires i < |bars| && 0 < w && i + 1 >= w
    requires sim.queue == [] && sim.history == Window(bars, i, w + HistorySlack)
    ensures RunFrom(sim, bars, i, w, read).sim.price == bars[|bars| - 1].close
    decreases |bars| - i, 0
  {
    var sim2 := Cycle(Advance(sim, bars, i, w + HistorySlack), read);
    var rest := RunFrom(sim2, bars, i + 1, w, read);
    assert RunFrom(sim, bars, i, w, read).sim == rest.sim;
    if i + 1 == |bars| {
      assert rest.sim == sim2;
    } else {
      RunFromEndPrice(sim2, bars, i + 1, w, read);
    }
  }

  /** The last equity point of a replay is the firm's total equity in its final state. */
  lemma {:induction false} RunFromLastPoint(sim: Simulator, bars: seq<Bar>, i: nat, w: nat, read: Indicators)
    requires i <= |bars| && 0 < w
    requires sim.queue == [] && sim.history == Window(bars, i, w + HistorySlack)
    ensures LastPointIsEquity(RunFrom(sim, bars, i, w, read))
    decreases |bars| - i, 1
  {
    if i < |bars| {
      if i + 1 >= w {
        ActiveLastPoint(sim, bars, i, w, read);
      } else {
        var sim1 := Advance(sim, bars, i, w + HistorySlack);
        assert RunFrom(sim, bars, i, w, read) == RunFrom(sim1, bars, i + 1, w, read);
        RunFromLastPoint(sim1, bars, i + 1, w, read);
      }
    }
  }

  /** The active case of `RunFromLastPoint`: the bar records a point and the replay goes on. */
  lemma {:induction false} ActiveLastPoint(sim: Simulator, bars: seq<Bar>, i: nat, w: nat, read: Indicators)
    requires i < |bars| && 0 < w && i + 1 >= w
    requires sim.queue == [] && sim.history == Window(bars, i, w + HistorySlack)
    ensures LastPointIsEquity(RunFrom(sim, bars, i, w, read))
    decreases |bars| - i, 0
  {
    var sim2 := Cycle(Advance(sim, bars, i, w + HistorySlack), read);
    var rest := RunFrom(sim2, bars, i + 1, w, read);
    if i + 1 == |bars| {
      assert rest == RunState(sim2, []);
    } else {
      assert |rest.curve| == ActiveBars(|bars|, i + 1, w) > 0;
      RunFromLastPoint(sim2, bars, i + 1, w, read);
    }
    RecordKeepsLastPoint(sim2, rest);
  }

  predicate LastPointIsEquity(st: RunState) {
    st.curve != [] ==> st.curve[|st.curve| - 1] == TotalEquity(st.sim.firm, st.sim.price)
  }

  /** Prepending the equity point of `sim` to a replay that either recorded nothing and
      stayed at `sim`, or already ends on its own equity, ends on the final equity. */
  lemma RecordKeepsLastPoint(sim: Simulator, rest: RunState)
    requires rest.curve == [] ==> rest.sim == sim
    requires LastPointIsEquity(rest)
    ensures LastPointIsEquity(RunState(rest.sim, [TotalEquity(sim.firm, sim.price)] + rest.curve))
  {
  }

  /** Number of bars from index `i` on that are past warm-up (index at least `w - 1`). */
  function ActiveBars(n: nat, i: nat, w: nat): nat
    decreases n - i
  {
    if i >= n then 0 else (if i + 1 >= w then 1 else 0) + ActiveBars(n, i + 1, w)
  }

  lemma {:induction false} ActiveBarsCount(n: nat, i: nat, w: nat)
    requires 0 < w
    ensures ActiveBars(n, i, w) == if n <= i then 0 else if i + 1 >= w then n - i
                                   else if n + 1 >= w then n - w + 1 else 0
    decreases n - i
  {
    if i < n {
      ActiveBarsCount(n, i + 1, w);
    }
  }

  /** `MarketSimulator.run`: the equity curve (one point per bar from the warm-up window
      on) and the trade log; both empty when no bar got past warm-up. */
  function Run(firm: seq<Strategy>, bars: seq<Bar>, read: Indicators): (r: (seq<real>, seq<Fill>))
    ensures |r.0| == if |bars| >= MaxLookback(firm) then |bars| - MaxLookback(firm) + 1 else 0
    ensures r.0 == [] ==> r.1 == []
    ensures r.0 != [] ==>
              var st := RunFrom(Simulator(firm, [], [], 0.0, []), bars, 0, MaxLookback(firm), read);
              && r.1 == st.sim.log
              && r.0[|r.0| - 1] == TotalEquity(st.sim.firm, bars[|bars| - 1].close)
  {
    var w := MaxLookback(firm);
    var st := RunFrom(Simulator(firm, [], [], 0.0, []), bars, 0, w, read);
    ActiveBarsCount(|bars|, 0, w);
    RunFromLastPoint(Simulator(firm, [], [], 0.0, []), bars, 0, w, read);
    RunFromEndPrice(Simulator(firm, [], [], 0.0, []), bars, 0, w, read);
    if st.curve == [] then ([], []) else (st.curve, st.sim.log)
  }

  /** Over a replay with non-negative closes, a solvent portfolio stays solvent: no
      strategy's cash or shares ever go negative. */
  lemma {:induction false} RunKeepsSolvency(sim: Simulator, bars: seq<Bar>, i: nat, w: nat, read: Indicators)
    requires i <= |bars| && 0 < w
    requires sim.queue == [] && sim.history == Window(bars, i, w + HistorySlack)
    requires AllSolvent(sim.firm)
    requires forall k | i <= k < |bars| :: 0.0 <= bars[k].close
    ensures AllSolvent(RunFrom(sim, bars, i, w, read).sim.firm)
    decreases |bars| - i
  {
    if i < |bars| {
      var sim1 := Advance(sim, bars, i, w + HistorySlack);
      assert sim1.firm == sim.firm && 0.0 <= sim1.price;
      if i + 1 >= w {
        var sim2 := Cycle(sim1, read);
        assert RunFrom(sim, bars, i, w, read).sim == RunFrom(sim2, bars, i + 1, w, read).sim;
        RunKeepsSolvency(sim2, bars, i + 1, w, read);
      } else {
        assert RunFrom(sim, bars, i, w, read) == RunFrom(sim1, bars, i + 1, w, read);
        RunKeepsSolvency(sim1, bars, i + 1, w, read);
      }
    }
  }
}
