/** The live engine: the risk manager's per-order notional gate, and the chief
    investment officer that splits the initial capital, marks the strategies to the last
    known prices, turns ticks into orders (stop-loss and take-profit first, then the
    strategies' own signals) and settles each order at the last known price, without
    costs or slippage. The trade log, the portfolio ledger file and the alert channel
    are modelled as values kept in the state. */
module Citadel {
  import opened Trading
  import opened LiveStrategies

  /** The largest notional a single order may have. */
  const MaxOrderValue: real := 200000.0

  const InitialCapital: real := 1000000.0

  // ---------------------------------------------------------------------------
  // Risk manager
  // ---------------------------------------------------------------------------

  /** The breach flag is only ever cleared; no code sets it. */
  datatype RiskManager = RiskManager(peakEquity: real, drawdownBreached: bool)

  const FreshRiskManager := RiskManager(0.0, false)

  datatype Alert = Alert(subject: string, orderValue: real)

  datatype Verdict = Verdict(allowed: bool, alert: Option<Alert>)

  /** `is_trade_allowed`: an order passes iff its notional is within the limit,
      whatever its side; each refusal raises exactly one alert. */
  function IsTradeAllowed(rm: RiskManager, side: Side, qty: int, price: real): (v: Verdict)
    ensures v.allowed <==> Value(qty, price) <= MaxOrderValue
    ensures v.alert.Some? <==> !v.allowed
    ensures v.alert.Some? ==> v.alert.value.orderValue > MaxOrderValue
  {
    var orderValue := Value(qty, price);
    if orderValue > MaxOrderValue then Verdict(false, Some(Alert("RISK VIOLATION", orderValue)))
    else Verdict(true, None)
  }

  /** The gate is monotone: at a non-negative price, a smaller order of an allowed size
      is allowed too. */
  lemma SmallerOrdersPass(rm: RiskManager, side: Side, qty: int, smaller: int, price: real)
    requires 0 <= smaller <= qty && 0.0 <= price
    requires IsTradeAllowed(rm, side, qty, price).allowed
    ensures IsTradeAllowed(rm, side, smaller, price).allowed
  {
    assert Value(qty, price) == Value(smaller, price) + Value(qty - smaller, price);
    assert 0.0 <= Value(qty - smaller, price) by {
      MulNonNegative((qty - smaller) as real, price);
    }
  }

  lemma MulNonNegative(a: real, b: real)
    requires 0.0 <= a && 0.0 <= b
    ensures 0.0 <= a * b
  {
  }

  /** `assess_new_day`: records the day's starting equity as the peak and clears the
      breach flag; the order gate neither reads nor depends on either field. */
  function AssessNewDay(rm: RiskManager, value: real): (r: RiskManager)
    ensures r.peakEquity == value && !r.drawdownBreached
    ensures forall side, qty, price :: IsTradeAllowed(r, side, qty, price) == IsTradeAllowed(rm, side, qty, price)
  {
    RiskManager(value, false)
  }

  // ---------------------------------------------------------------------------
  // Portfolio of live strategies
  // ---------------------------------------------------------------------------

  function LiveIds(ss: seq<LiveStrategy>): (ids: seq<StrategyId>)
    ensures |ids| == |ss| && forall j | 0 <= j < |ss| :: ids[j] == ss[j].id
  {
    if ss == [] then [] else [ss[0].id] + LiveIds(ss[1..])
  }

  predicate DistinctLiveIds(ss: seq<LiveStrategy>) {
    forall i, j | 0 <= i < j < |ss| :: ss[i].id != ss[j].id
  }

  predicate AllLiveSolvent(ss: seq<LiveStrategy>) {
    forall j | 0 <= j < |ss| :: LiveSolvent(ss[j])
  }

  /** The position of a strategy id in the portfolio (dictionary lookup). */
  function LiveIndexOf(ss: seq<LiveStrategy>, id: StrategyId): (r: Option<nat>)
    ensures r.Some? ==> r.value < |ss| && ss[r.value].id == id
    ensures r.None? <==> id !in LiveIds(ss)
  {
    if ss == [] then None
    else if ss[0].id == id then Some(0)
    else match LiveIndexOf(ss[1..], id)
      case Some(k) => Some(k + 1)
      case None => None
  }

  lemma IndexOfDistinct(ss: seq<LiveStrategy>, j: nat)
    requires DistinctLiveIds(ss) && j < |ss|
    ensures LiveIndexOf(ss, ss[j].id) == Some(j)
  {
    assert ss[j].id == LiveIds(ss)[j];
  }

  /** `get_total_equity`: the sum of every strategy's equity at the given prices. */
  ghost function TotalEquity(ss: seq<LiveStrategy>, prices: map<Symbol, real>): real {
    if ss == [] then 0.0 else Equity(ss[0], prices) + TotalEquity(ss[1..], prices)
  }

  function TotalLiveCash(ss: seq<LiveStrategy>): real {
    if ss == [] then 0.0 else ss[0].cash + TotalLiveCash(ss[1..])
  }

  /** With every position flat, the portfolio's equity is its total cash at any prices. */
  lemma {:induction false} FlatTotalEquity(ss: seq<LiveStrategy>, prices: map<Symbol, real>)
    requires forall j, sym | 0 <= j < |ss| && sym in ss[j].positions :: ss[j].positions[sym] == 0
    ensures TotalEquity(ss, prices) == TotalLiveCash(ss)
  {
    if ss != [] {
      FlatEquity(ss[0], prices);
      FlatTotalEquity(ss[1..], prices);
    }
  }

  lemma {:induction false} TotalEquityUpdate(ss: seq<LiveStrategy>, prices: map<Symbol, real>, j: nat, s: LiveStrategy)
    requires j < |ss|
    ensures TotalEquity(ss[j := s], prices) == TotalEquity(ss, prices) - Equity(ss[j], prices) + Equity(s, prices)
  {
    if j > 0 {
      assert ss[j := s][1..] == ss[1..][j - 1 := s];
      TotalEquityUpdate(ss[1..], prices, j - 1, s);
    }
  }

  lemma {:induction false} TotalLiveCashUniform(ss: seq<LiveStrategy>, c: real)
    requires forall j | 0 <= j < |ss| :: ss[j].cash == c
    ensures TotalLiveCash(ss) == Times(|ss|, c)
  {
    if ss != [] {
      TotalLiveCashUniform(ss[1..], c);
    }
  }

  /** `_rebalance_capital`: every strategy's cash becomes an equal share of the capital;
      positions and exits are kept; with no strategies nothing happens. */
  function Rebalance(ss: seq<LiveStrategy>, capital: real): (r: seq<LiveStrategy>)
    ensures |r| == |ss|
    ensures |ss| == 0 ==> r == ss
    ensures forall j | 0 <= j < |r| ::
              && r[j].id == ss[j].id && r[j].params == ss[j].params && r[j].positions == ss[j].positions
              && r[j].stopLoss == ss[j].stopLoss && r[j].takeProfit == ss[j].takeProfit
              && r[j].cash == Share(capital, |ss|)
  {
    if |ss| == 0 then ss
    else seq(|ss|, j requires 0 <= j < |ss| => SetCapital(ss[j], Share(capital, |ss|)))
  }

  /** The split hands out exactly the capital. */
  lemma RebalanceConservesCapital(ss: seq<LiveStrategy>, capital: real)
    requires |ss| > 0
    ensures TotalLiveCash(Rebalance(ss, capital)) == capital
    ensures LiveIds(Rebalance(ss, capital)) == LiveIds(ss)
  {
    var r := Rebalance(ss, capital);
    TotalLiveCashUniform(r, Share(capital, |ss|));
    assert |r| == |ss|;
    SharesAddUp(capital, |ss|);
  }

  /** An equal share of the capital among `n` strategies. */
  function Share(capital: real, n: nat): real
    requires n > 0
  {
    capital / n as real
  }

  lemma SharesAddUp(capital: real, n: nat)
    requires n > 0
    ensures Times(n, Share(capital, n)) == capital
  {
  }

  function Times(n: nat, c: real): real {
    n as real * c
  }

  // ---------------------------------------------------------------------------
  // Ledger snapshot and reload
  // ---------------------------------------------------------------------------

  /** Saved positions per strategy id. */
  type Ledger = map<StrategyId, map<Symbol, int>>

  /** The positions worth saving: strictly positive quantities only. */
  function Positive(positions: map<Symbol, int>): (r: map<Symbol, int>)
    ensures forall sym :: sym in r <==> sym in positions && positions[sym] > 0
    ensures forall sym | sym in r :: r[sym] == positions[sym]
  {
    map sym | sym in positions && positions[sym] > 0 :: positions[sym]
  }

  lemma IdsSet(ss: seq<LiveStrategy>)
    ensures (set id | id in LiveIds(ss)) == set j | 0 <= j < |ss| :: ss[j].id
  {
    forall id | id in LiveIds(ss) ensures id in set j | 0 <= j < |ss| :: ss[j].id {
      var j := LiveIndexOf(ss, id).value;
      assert ss[j].id == id;
    }
  }

  /** The content `_save_portfolio_to_disk` writes: every strategy's positive positions. */
  function Snapshot(ss: seq<LiveStrategy>): (l: Ledger)
    ensures l.Keys == set j | 0 <= j < |ss| :: ss[j].id
    ensures DistinctLiveIds(ss) ==> forall j | 0 <= j < |ss| :: l[ss[j].id] == Positive(ss[j].positions)
  {
    var l := map id | id in LiveIds(ss) :: Positive(ss[LiveIndexOf(ss, id).value].positions);
    IdsSet(ss);
    assert l.Keys == (set id | id in LiveIds(ss));
    if DistinctLiveIds(ss) then
      assert forall j | 0 <= j < |ss| :: LiveIndexOf(ss, ss[j].id) == Some(j) by {
        forall j | 0 <= j < |ss| ensures LiveIndexOf(ss, ss[j].id) == Some(j) {
          IndexOfDistinct(ss, j);
        }
      }
      l
    else l
  }

  /** The merge `_load_portfolio_from_disk` performs: a known strategy's positions are
      updated from its saved entry; entries of unknown ids are ignored. */
  function Merge(ss: seq<LiveStrategy>, saved: Ledger): (r: seq<LiveStrategy>)
    ensures |r| == |ss| && LiveIds(r) == LiveIds(ss)
    ensures forall j | 0 <= j < |ss| ::
              && r[j].id == ss[j].id && r[j].params == ss[j].params && r[j].cash == ss[j].cash
              && r[j].stopLoss == ss[j].stopLoss && r[j].takeProfit == ss[j].takeProfit
              && (ss[j].id !in saved ==> r[j].positions == ss[j].positions)
              && (ss[j].id in saved ==>
                    forall sym :: (sym in r[j].positions <==> sym in ss[j].positions || sym in saved[ss[j].id])
                                  && (sym in saved[ss[j].id] ==> r[j].positions[sym] == saved[ss[j].id][sym])
                                  && (sym in ss[j].positions && sym !in saved[ss[j].id] ==>
                                        r[j].positions[sym] == ss[j].positions[sym]))
  {
    var r := seq(|ss|, j requires 0 <= j < |ss| =>
      if ss[j].id in saved then ss[j].(positions := ss[j].positions + saved[ss[j].id]) else ss[j]);
    assert LiveIds(r) == LiveIds(ss);
    r
  }

  /** Saving and then loading into strategies with the same ids and no positions
      restores exactly the positive positions. */
  lemma SnapshotMergeRestores(ss: seq<LiveStrategy>, blank: seq<LiveStrategy>)
    requires DistinctLiveIds(ss) && LiveIds(blank) == LiveIds(ss)
    requires forall j | 0 <= j < |blank| :: blank[j].positions == map[]
    ensures forall j | 0 <= j < |ss| :: Merge(blank, Snapshot(ss))[j].positions == Positive(ss[j].positions)
  {
    var l := Snapshot(ss);
    var r := Merge(blank, l);
    forall j | 0 <= j < |ss| ensures r[j].positions == Positive(ss[j].positions) {
      var id := ss[j].id;
      assert blank[j].id == LiveIds(blank)[j] == id;
      assert id in l && l[id] == Positive(ss[j].positions);
      EmptyUnion(r[j].positions, l[id]);
    }
  }

  /** A map that holds exactly another map's keys, at the same values, is that map. */
  lemma EmptyUnion(m: map<Symbol, int>, n: map<Symbol, int>)
    requires forall sym :: (sym in m <==> sym in n) && (sym in n ==> m[sym] == n[sym])
    ensures m == n
  {
  }

  // ---------------------------------------------------------------------------
  // Order settlement
  // ---------------------------------------------------------------------------

  /** A fill in the live trade log. */
  datatype Execution = Execution(id: StrategyId, side: Side, qty: int, symbol: Symbol, price: real)

  datatype Cio = Cio(
    strategies: seq<LiveStrategy>,   // in registry order
    prices: map<Symbol, real>,       // last known price per symbol
    tradeCount: int,
    risk: RiskManager,
    alerts: seq<Alert>,              // what the alerter was sent
    log: seq<Execution>,             // the live trade log
    ledger: Ledger)                  // the saved portfolio

  /** The order's strategy can pay for a buy, or holds enough for a sell. */
  predicate Funded(s: LiveStrategy, sym: Symbol, side: Side, qty: int, price: real) {
    match side
    case Buy => s.cash >= Value(qty, price)
    case Sell => Position(s, sym) >= qty
  }

  /** Moves the shares and the cash of one fill at `price`. */
  function Settled(s: LiveStrategy, sym: Symbol, side: Side, qty: int, price: real): (r: LiveStrategy)
    ensures r.id == s.id && r.params == s.params
    ensures r.stopLoss == s.stopLoss && r.takeProfit == s.takeProfit
    ensures Position(r, sym) == Position(s, sym) + (if side == Buy then qty else -qty)
    ensures r.cash == s.cash + (if side == Buy then -Value(qty, price) else Value(qty, price))
    ensures forall other | other != sym :: Position(r, other) == Position(s, other)
    ensures LiveSolvent(s) && Funded(s, sym, side, qty, price) && 0 < qty && 0.0 < price ==> LiveSolvent(r)
  {
    var delta := if side == Buy then qty else -qty;
    var r := s.(positions := s.positions[sym := Position(s, sym) + delta],
                cash := if side == Buy then s.cash - Value(qty, price) else s.cash + Value(qty, price));
    if side == Sell && 0 < qty && 0.0 < price then
      MulNonNegative(qty as real, price);
      r
    else r
  }

  /** A fill at the last known price moves value between cash and the position without
      changing the strategy's equity. */
  lemma SettledKeepsEquity(s: LiveStrategy, sym: Symbol, side: Side, qty: int, prices: map<Symbol, real>)
    requires sym in prices
    ensures Equity(Settled(s, sym, side, qty, prices[sym]), prices) == Equity(s, prices)
  {
    var delta := if side == Buy then qty else -qty;
    ValueNegate(qty, prices[sym]);
    var r := Settled(s, sym, side, qty, prices[sym]);
    assert r.positions == s.positions[sym := Position(s, sym) + delta];
    assert r.cash == s.cash - Value(delta, prices[sym]);
    MoveKeepsEquity(s.cash, s.positions, sym, Position(s, sym), delta, prices);
  }

  /** Buying `delta` shares (selling, if negative) for their value at the last price. */
  lemma MoveKeepsEquity(cash: real, positions: map<Symbol, int>, sym: Symbol, held: int, delta: int,
                        prices: map<Symbol, real>)
    requires sym in prices && held == if sym in positions then positions[sym] else 0
    ensures cash - Value(delta, prices[sym]) + PositionValue(positions[sym := held + delta], prices)
            == cash + PositionValue(positions, prices)
  {
    var price := prices[sym];
    assert Lookup(prices, sym) == price;
    var before := PositionValue(positions, prices);
    var after := PositionValue(positions[sym := held + delta], prices);
    PositionValueUpdate(positions, prices, sym, held + delta);
    assert (if sym in positions then Value(positions[sym], Lookup(prices, sym)) else 0.0) == Value(held, price);
    ValueAdds(held, delta, price);
    assert after == before - Value(held, price) + (Value(held, price) + Value(delta, price));
    Rearrange(cash, before, after, Value(held, price), Value(delta, price));
  }

  lemma Rearrange(cash: real, before: real, after: real, held: real, moved: real)
    requires after == before - held + (held + moved)
    ensures cash - moved + after == cash + before
  {
  }

  lemma ValueNegate(qty: int, price: real)
    ensures Value(-qty, price) == -Value(qty, price)
  {
  }

  /** The price `submit_order` uses is present and positive. */
  predicate PriceKnown(c: Cio, sym: Symbol) {
    sym in c.prices && c.prices[sym] > 0.0
  }

  /** The order reaches the risk gate and is refused. */
  predicate Denied(c: Cio, sym: Symbol, qty: int) {
    PriceKnown(c, sym) && qty > 0 && Value(qty, c.prices[sym]) > MaxOrderValue
  }

  /** The order passes every guard and fills. */
  predicate Executes(c: Cio, id: StrategyId, sym: Symbol, side: Side, qty: int)
    requires id in LiveIds(c.strategies)
  {
    && PriceKnown(c, sym) && qty > 0 && Value(qty, c.prices[sym]) <= MaxOrderValue
    && Funded(c.strategies[LiveIndexOf(c.strategies, id).value], sym, side, qty, c.prices[sym])
  }

  /** `submit_order`. An order without a positive last price or with a non-positive
      quantity is dropped; one above the notional limit raises one alert; one its
      strategy cannot fund is dropped; otherwise it fills at the last price, is counted,
      logged, and the ledger is saved. Only the named strategy can change. */
  function SubmitOrder(c: Cio, id: StrategyId, sym: Symbol, side: Side, qty: int): (r: Cio)
    requires id in LiveIds(c.strategies)
    ensures r.prices == c.prices && r.risk == c.risk
    ensures |r.strategies| == |c.strategies| && LiveIds(r.strategies) == LiveIds(c.strategies)
    ensures !PriceKnown(c, sym) || qty <= 0 ==> r == c
    ensures r.alerts == c.alerts + (if Denied(c, sym, qty) then [Alert("RISK VIOLATION", Value(qty, c.prices[sym]))] else [])
    ensures !Executes(c, id, sym, side, qty) ==>
              r.strategies == c.strategies && r.tradeCount == c.tradeCount && r.log == c.log && r.ledger == c.ledger
    ensures Executes(c, id, sym, side, qty) ==>
              var j := LiveIndexOf(c.strategies, id).value;
              && r.strategies == c.strategies[j := Settled(c.strategies[j], sym, side, qty, c.prices[sym])]
              && r.tradeCount == c.tradeCount + 1
              && r.log == c.log + [Execution(id, side, qty, sym, c.prices[sym])]
              && r.ledger == Snapshot(r.strategies)
    ensures AllLiveSolvent(c.strategies) ==> AllLiveSolvent(r.strategies)
  {
    if sym !in c.prices || c.prices[sym] <= 0.0 then c
    else if qty <= 0 then c
    else
      var price := c.prices[sym];
      var verdict := IsTradeAllowed(c.risk, side, qty, price);
      if !verdict.allowed then c.(alerts := c.alerts + [verdict.alert.value])
      else
        var j := LiveIndexOf(c.strategies, id).value;
        var s := c.strategies[j];
        if Funded(s, sym, side, qty, price) then
          var ss := c.strategies[j := Settled(s, sym, side, qty, price)];
          assert LiveIds(ss) == LiveIds(c.strategies);
          c.(strategies := ss, tradeCount := c.tradeCount + 1,
             log := c.log + [Execution(id, side, qty, sym, price)], ledger := Snapshot(ss))
        else c
  }

  /** Settlement at the last known price never changes the portfolio's total equity at
      those prices. */
  lemma SubmitOrderKeepsEquity(c: Cio, id: StrategyId, sym: Symbol, side: Side, qty: int)
    requires id in LiveIds(c.strategies)
    ensures TotalEquity(SubmitOrder(c, id, sym, side, qty).strategies, c.prices) == TotalEquity(c.strategies, c.prices)
  {
    if Executes(c, id, sym, side, qty) {
      var j := LiveIndexOf(c.strategies, id).value;
      var s := c.strategies[j];
      SettledKeepsEquity(s, sym, side, qty, c.prices);
      TotalEquityUpdate(c.strategies, c.prices, j, Settled(s, sym, side, qty, c.prices[sym]));
    }
  }

  /** A refused order, or one that fails the funds check, leaves the books, the count,
      the trade log and the ledger as they were; a refusal adds exactly one alert. */
  lemma RejectedOrderChangesNothing(c: Cio, id: StrategyId, sym: Symbol, side: Side, qty: int)
    requires id in LiveIds(c.strategies)
    requires PriceKnown(c, sym) && qty > 0 && !Executes(c, id, sym, side, qty)
    ensures var r := SubmitOrder(c, id, sym, side, qty);
            && r.strategies == c.strategies && r.tradeCount == c.tradeCount
            && r.log == c.log && r.ledger == c.ledger
            && |r.alerts| == |c.alerts| + (if Value(qty, c.prices[sym]) > MaxOrderValue then 1 else 0)
  {
  }

  // ---------------------------------------------------------------------------
  // Market data
  // ---------------------------------------------------------------------------

  /** One symbol's tick: its latest price and its price history. */
  datatype Tick = Tick(price: real, history: seq<real>)

  /** A stop-loss that is armed and hit by the price, on a held position. */
  predicate LiveStopLossHit(s: LiveStrategy, sym: Symbol, price: real) {
    Position(s, sym) > 0 && Lookup(s.stopLoss, sym) > 0.0 && price <= Lookup(s.stopLoss, sym)
  }

  predicate LiveTakeProfitHit(s: LiveStrategy, sym: Symbol, price: real) {
    Position(s, sym) > 0 && Lookup(s.takeProfit, sym) > 0.0 && price >= Lookup(s.takeProfit, sym)
  }

  /** The trade count and the trade log grow together, and the log only grows at its end. */
  predicate LogExtends(c: Cio, r: Cio) {
    && r.tradeCount - |r.log| == c.tradeCount - |c.log|
    && |c.log| <= |r.log| && r.log[..|c.log|] == c.log
  }

  lemma LogExtendsTransitive(a: Cio, b: Cio, c: Cio)
    requires LogExtends(a, b) && LogExtends(b, c)
    ensures LogExtends(a, c)
  {
    assert c.log[..|a.log|] == c.log[..|b.log|][..|a.log|];
  }

  /** Every fill appended after `c` is by strategy `id` in `sym`. */
  predicate NewFillsBy(c: Cio, r: Cio, id: StrategyId, sym: Symbol)
    requires |c.log| <= |r.log|
  {
    forall k | |c.log| <= k < |r.log| :: r.log[k].id == id && r.log[k].symbol == sym
  }

  /** Only strategy `j` of the portfolio differs. */
  predicate OthersUnchanged(c: Cio, r: Cio, j: nat)
    requires |r.strategies| == |c.strategies|
  {
    forall k | 0 <= k < |c.strategies| && k != j :: r.strategies[k] == c.strategies[k]
  }

  /** `submit_order` on behalf of strategy `j`, when ids are distinct: nothing but that
      strategy changes, and a fill moves its position by the order quantity. */
  lemma SubmitOrderAt(c: Cio, j: nat, sym: Symbol, side: Side, qty: int)
    requires j < |c.strategies| && DistinctLiveIds(c.strategies)
    ensures var r := SubmitOrder(c, c.strategies[j].id, sym, side, qty);
            && OthersUnchanged(c, r, j)
            && LogExtends(c, r) && |r.log| <= |c.log| + 1 && NewFillsBy(c, r, c.strategies[j].id, sym)
            && Position(r.strategies[j], sym) ==
                 Position(c.strategies[j], sym)
                 + (if !Executes(c, c.strategies[j].id, sym, side, qty) then 0 else if side == Buy then qty else -qty)
  {
    IndexOfDistinct(c.strategies, j);
    SubmitOrderLog(c, c.strategies[j].id, sym, side, qty);
  }

  /** A submitted order adds at most one fill, for its own strategy and symbol. */
  lemma SubmitOrderLog(c: Cio, id: StrategyId, sym: Symbol, side: Side, qty: int)
    requires id in LiveIds(c.strategies)
    ensures var r := SubmitOrder(c, id, sym, side, qty);
            LogExtends(c, r) && |r.log| <= |c.log| + 1 && NewFillsBy(c, r, id, sym)
  {
    var r := SubmitOrder(c, id, sym, side, qty);
    assert r.log[..|c.log|] == c.log;
  }

  lemma DistinctByIds(a: seq<LiveStrategy>, b: seq<LiveStrategy>)
    requires DistinctLiveIds(a) && LiveIds(b) == LiveIds(a)
    ensures DistinctLiveIds(b)
  {
    forall i, j | 0 <= i < j < |b| ensures b[i].id != b[j].id {
      assert b[i].id == LiveIds(a)[i] && b[j].id == LiveIds(a)[j];
    }
  }

  /** The whole position of strategy `j` is offered for sale and its exits are cleared,
      whether or not the sale fills; the position is gone exactly when the sale fills. */
  function ExitPosition(c: Cio, j: nat, sym: Symbol): (r: Cio)
    requires j < |c.strategies| && DistinctLiveIds(c.strategies)
    ensures r.prices == c.prices && r.risk == c.risk
    ensures |r.strategies| == |c.strategies| && LiveIds(r.strategies) == LiveIds(c.strategies)
    ensures OthersUnchanged(c, r, j)
    ensures AllLiveSolvent(c.strategies) ==> AllLiveSolvent(r.strategies)
    ensures Lookup(r.strategies[j].stopLoss, sym) == 0.0 && Lookup(r.strategies[j].takeProfit, sym) == 0.0
    ensures Position(r.strategies[j], sym) ==
              if Executes(c, c.strategies[j].id, sym, Sell, Position(c.strategies[j], sym)) then 0
              else Position(c.strategies[j], sym)
    ensures LogExtends(c, r) && |r.log| <= |c.log| + 1 && NewFillsBy(c, r, c.strategies[j].id, sym)
  {
    var s := c.strategies[j];
    var c1 := SubmitOrder(c, s.id, sym, Sell, Position(s, sym));
    SubmitOrderAt(c, j, sym, Sell, Position(s, sym));
    ClearExits(c1, j, sym)
  }

  /** `_clear_exit_prices` on strategy `j`, inside the portfolio. */
  function ClearExits(c: Cio, j: nat, sym: Symbol): (r: Cio)
    requires j < |c.strategies|
    ensures r.prices == c.prices && r.risk == c.risk && r.log == c.log && r.tradeCount == c.tradeCount
    ensures r.alerts == c.alerts && r.ledger == c.ledger
    ensures |r.strategies| == |c.strategies| && LiveIds(r.strategies) == LiveIds(c.strategies)
    ensures OthersUnchanged(c, r, j) && SameLiveBook(r.strategies[j], c.strategies[j])
    ensures AllLiveSolvent(c.strategies) ==> AllLiveSolvent(r.strategies)
    ensures Lookup(r.strategies[j].stopLoss, sym) == 0.0 && Lookup(r.strategies[j].takeProfit, sym) == 0.0
  {
    var ss := c.strategies[j := ClearExitPrices(c.strategies[j], sym)];
    assert LiveIds(ss) == LiveIds(c.strategies);
    c.(strategies := ss)
  }

  /** BUY sizing: 2% of the strategy's cash per unit of price, truncated; zero for a
      non-positive price. With cash on hand it is the largest whole quantity whose
      notional fits in that 2% budget. */
  function LiveBuyQuantity(cash: real, price: real): (q: int)
    ensures price <= 0.0 ==> q == 0
    ensures 0.0 < price ==> q == Trunc(cash * RiskPerTrade / price)
    ensures 0.0 < price && 0.0 <= cash ==> 0 <= q && Value(q, price) <= cash * RiskPerTrade
    ensures 0.0 < price && 0.0 <= cash ==> cash * RiskPerTrade < Value(q + 1, price)
  {
    if price > 0.0 then
      var q := Trunc(cash * RiskPerTrade / price);
      if 0.0 <= cash then
        ScaleBack(q as real, cash * RiskPerTrade, price);
        ScaleUp((q + 1) as real, cash * RiskPerTrade, price);
        q
      else q
    else 0
  }

  lemma ScaleBack(q: real, budget: real, price: real)
    requires 0.0 < price && q <= budget / price
    ensures q * price <= budget
  {
    assert budget / price * price == budget;
  }

  lemma ScaleUp(q: real, budget: real, price: real)
    requires 0.0 < price && budget / price < q
    ensures budget < q * price
  {
    assert budget / price * price == budget;
  }

  /** One strategy's handling of one symbol's tick: a triggered stop-loss (checked
      first) or take-profit exits and skips the strategy's logic; otherwise the strategy
      decides. A held position is never added to: it is either sold whole or kept. */
  function StrategyStep(c: Cio, j: nat, sym: Symbol, price: real, history: seq<real>, read: LiveIndicators)
    : (r: Cio)
    requires j < |c.strategies| && DistinctLiveIds(c.strategies)
    ensures r.prices == c.prices && r.risk == c.risk
    ensures |r.strategies| == |c.strategies| && LiveIds(r.strategies) == LiveIds(c.strategies)
    ensures OthersUnchanged(c, r, j)
    ensures AllLiveSolvent(c.strategies) ==> AllLiveSolvent(r.strategies)
    ensures LogExtends(c, r) && |r.log| <= |c.log| + 1 && NewFillsBy(c, r, c.strategies[j].id, sym)
    ensures LiveStopLossHit(c.strategies[j], sym, price) ==> r == ExitPosition(c, j, sym)
    ensures !LiveStopLossHit(c.strategies[j], sym, price) && LiveTakeProfitHit(c.strategies[j], sym, price) ==>
              r == ExitPosition(c, j, sym)
    ensures Position(c.strategies[j], sym) > 0 ==>
              Position(r.strategies[j], sym) == 0 || Position(r.strategies[j], sym) == Position(c.strategies[j], sym)
    ensures !LiveStopLossHit(c.strategies[j], sym, price) && !LiveTakeProfitHit(c.strategies[j], sym, price) ==>
              r == Act(c, j, sym, price, history, read)
  {
    var s := c.strategies[j];
    if LiveStopLossHit(s, sym, price) then ExitPosition(c, j, sym)
    else if LiveTakeProfitHit(s, sym, price) then ExitPosition(c, j, sym)
    else Act(c, j, sym, price, history, read)
  }

  /** The strategy's own signal: a BUY arms the exit prices and enters (BUY comes only
      when flat), a SELL offers the whole position and clears the exits, a HOLD changes
      nothing. */
  function Act(c: Cio, j: nat, sym: Symbol, price: real, history: seq<real>, read: LiveIndicators)
    : (r: Cio)
    requires j < |c.strategies| && DistinctLiveIds(c.strategies)
    ensures r.prices == c.prices && r.risk == c.risk
    ensures |r.strategies| == |c.strategies| && LiveIds(r.strategies) == LiveIds(c.strategies)
    ensures OthersUnchanged(c, r, j)
    ensures AllLiveSolvent(c.strategies) ==> AllLiveSolvent(r.strategies)
    ensures LogExtends(c, r) && |r.log| <= |c.log| + 1 && NewFillsBy(c, r, c.strategies[j].id, sym)
    ensures Position(c.strategies[j], sym) > 0 ==>
              Position(r.strategies[j], sym) == 0 || Position(r.strategies[j], sym) == Position(c.strategies[j], sym)
    ensures var d := Decide(c.strategies[j], sym, price, history, read);
            && (d.0 == BuySignal ==> r == Enter(Replace(c, j, SetExitPrices(c.strategies[j], sym, price)), j, sym, price))
            && (d.0 == SellSignal ==> r == ExitPosition(c, j, sym))
            && (d.0 == Hold ==> r == c)
  {
    var s := c.strategies[j];
    var d := Decide(s, sym, price, history, read);
    var c1 := Replace(c, j, d.1);
    if d.0 == BuySignal then Enter(c1, j, sym, price)
    else
      assert c1 == c by {
        assert c1.strategies == c.strategies;
      }
      if d.0 == SellSignal && Position(d.1, sym) > 0 then ExitPosition(c1, j, sym)
      else c1
  }

  /** A BUY signal: an order sized from the strategy's cash, submitted only when its
      quantity is positive. When the order executes, the position grows by that quantity
      and one BUY fill at the last price is logged; otherwise the position stays. */
  function Enter(c: Cio, j: nat, sym: Symbol, price: real): (r: Cio)
    requires j < |c.strategies| && DistinctLiveIds(c.strategies)
    ensures r.prices == c.prices && r.risk == c.risk
    ensures |r.strategies| == |c.strategies| && LiveIds(r.strategies) == LiveIds(c.strategies)
    ensures OthersUnchanged(c, r, j)
    ensures AllLiveSolvent(c.strategies) ==> AllLiveSolvent(r.strategies)
    ensures LogExtends(c, r) && |r.log| <= |c.log| + 1 && NewFillsBy(c, r, c.strategies[j].id, sym)
    ensures Position(r.strategies[j], sym) >= Position(c.strategies[j], sym)
    ensures LiveBuyQuantity(c.strategies[j].cash, price) <= 0 ==> r == c
    ensures var q := LiveBuyQuantity(c.strategies[j].cash, price);
            var fills := 0 < q && Executes(c, c.strategies[j].id, sym, Buy, q);
            && Position(r.strategies[j], sym) == Position(c.strategies[j], sym) + (if fills then q else 0)
            && r.log == c.log + (if fills then [Execution(c.strategies[j].id, Buy, q, sym, c.prices[sym])] else [])
  {
    var qty := LiveBuyQuantity(c.strategies[j].cash, price);
    if qty > 0 then
      SubmitOrderAt(c, j, sym, Buy, qty);
      SubmitOrder(c, c.strategies[j].id, sym, Buy, qty)
    else c
  }

  /** Strategy `j` replaced by a state with the same book (same id, cash and positions). */
  function Replace(c: Cio, j: nat, s: LiveStrategy): (r: Cio)
    requires j < |c.strategies| && DistinctLiveIds(c.strategies) && SameLiveBook(s, c.strategies[j])
    ensures r.prices == c.prices && r.risk == c.risk && r.log == c.log && r.tradeCount == c.tradeCount
    ensures |r.strategies| == |c.strategies| && LiveIds(r.strategies) == LiveIds(c.strategies)
    ensures DistinctLiveIds(r.strategies) && OthersUnchanged(c, r, j) && r.strategies[j] == s
    ensures AllLiveSolvent(c.strategies) ==> AllLiveSolvent(r.strategies)
  {
    var r := c.(strategies := c.strategies[j := s]);
    assert LiveIds(r.strategies) == LiveIds(c.strategies);
    DistinctByIds(c.strategies, r.strategies);
    r
  }

  /** Every strategy, in order, handles the tick. */
  function ProcessStrategies(c: Cio, j: nat, sym: Symbol, price: real, history: seq<real>, read: LiveIndicators)
    : (r: Cio)
    requires j <= |c.strategies| && DistinctLiveIds(c.strategies)
    ensures r.prices == c.prices && r.risk == c.risk
    ensures |r.strategies| == |c.strategies| && LiveIds(r.strategies) == LiveIds(c.strategies)
    ensures AllLiveSolvent(c.strategies) ==> AllLiveSolvent(r.strategies)
    ensures LogExtends(c, r)
    ensures forall i | 0 <= i < j :: r.strategies[i] == c.strategies[i]
    ensures forall i | j <= i < |c.strategies| ::
              r.strategies[i] == StepAlone(c.strategies[i], c.prices, c.risk, sym, price, history, read)
    decreases |c.strategies| - j
  {
    if j == |c.strategies| then c
    else
      var c1 := StrategyStep(c, j, sym, price, history, read);
      DistinctByIds(c.strategies, c1.strategies);
      StrategyStepIsAlone(c, j, sym, price, history, read);
      var r := ProcessStrategies(c1, j + 1, sym, price, history, read);
      LogExtendsTransitive(c, c1, r);
      r
  }

  /** A symbol's tick moves its last known price. */
  function Ticked(prices: map<Symbol, real>, tick: (Symbol, Option<Tick>)): map<Symbol, real> {
    match tick.1
    case Some(t) => prices[tick.0 := t.price]
    case None => prices
  }

  /** The first pass of `on_market_data`: every tick's price becomes the last known
      price of its symbol. */
  function UpdatePrices(prices: map<Symbol, real>, ticks: seq<(Symbol, Option<Tick>)>): (r: map<Symbol, real>)
    ensures prices.Keys <= r.Keys
    decreases |ticks|
  {
    if ticks == [] then prices else UpdatePrices(Ticked(prices, ticks[0]), ticks[1..])
  }

  /** The ticks of a dictionary: one per symbol. */
  predicate DistinctSymbols(ticks: seq<(Symbol, Option<Tick>)>) {
    forall i, k | 0 <= i < k < |ticks| :: ticks[i].0 != ticks[k].0
  }

  /** After the first pass a symbol's last price is its tick's price, and a symbol
      without a priced tick keeps its previous last price. */
  lemma {:induction false} UpdatePricesSets(prices: map<Symbol, real>, ticks: seq<(Symbol, Option<Tick>)>)
    requires DistinctSymbols(ticks)
    ensures forall i | 0 <= i < |ticks| && ticks[i].1.Some? ::
              ticks[i].0 in UpdatePrices(prices, ticks)
              && UpdatePrices(prices, ticks)[ticks[i].0] == ticks[i].1.value.price
    ensures forall sym | sym in prices && (forall i | 0 <= i < |ticks| :: ticks[i].0 != sym || ticks[i].1.None?) ::
              UpdatePrices(prices, ticks)[sym] == prices[sym]
    decreases |ticks|
  {
    if ticks != [] {
      var next := Ticked(prices, ticks[0]);
      var rest := ticks[1..];
      UpdatePricesSets(next, rest);
      forall i | 0 <= i < |ticks| && ticks[i].1.Some?
        ensures UpdatePrices(prices, ticks)[ticks[i].0] == ticks[i].1.value.price
      {
        if i == 0 {
          assert forall k | 0 <= k < |rest| :: rest[k].0 != ticks[0].0 || rest[k].1.None? by {
            forall k | 0 <= k < |rest| ensures rest[k].0 != ticks[0].0 {
              assert rest[k] == ticks[k + 1];
            }
          }
        } else {
          assert ticks[i] == rest[i - 1];
        }
      }
      forall sym | sym in prices && (forall i | 0 <= i < |ticks| :: ticks[i].0 != sym || ticks[i].1.None?)
        ensures UpdatePrices(prices, ticks)[sym] == prices[sym]
      {
        assert forall k | 0 <= k < |rest| :: rest[k].0 != sym || rest[k].1.None? by {
          forall k | 0 <= k < |rest| ensures rest[k].0 != sym || rest[k].1.None? {
            assert rest[k] == ticks[k + 1];
          }
        }
      }
    }
  }

  /** The second pass of `on_market_data`: ticks without a history are skipped; for the
      others every strategy acts at the tick's price. */
  function ProcessTicks(c: Cio, ticks: seq<(Symbol, Option<Tick>)>, read: LiveIndicators): (r: Cio)
    requires DistinctLiveIds(c.strategies)
    ensures r.prices == c.prices && r.risk == c.risk
    ensures |r.strategies| == |c.strategies| && LiveIds(r.strategies) == LiveIds(c.strategies)
    ensures AllLiveSolvent(c.strategies) ==> AllLiveSolvent(r.strategies)
    ensures LogExtends(c, r)
    ensures forall i | 0 <= i < |c.strategies| :: r.strategies[i] == TicksAlone(c.strategies[i], c.prices, c.risk, ticks, read)
    decreases |ticks|
  {
    if ticks == [] then c
    else
      var next := ProcessTick(c, ticks[0], read);
      DistinctByIds(c.strategies, next.strategies);
      var r := ProcessTicks(next, ticks[1..], read);
      LogExtendsTransitive(c, next, r);
      r
  }

  /** One symbol of the second pass. */
  function ProcessTick(c: Cio, tick: (Symbol, Option<Tick>), read: LiveIndicators): (r: Cio)
    requires DistinctLiveIds(c.strategies)
    ensures r.prices == c.prices && r.risk == c.risk
    ensures |r.strategies| == |c.strategies| && LiveIds(r.strategies) == LiveIds(c.strategies)
    ensures AllLiveSolvent(c.strategies) ==> AllLiveSolvent(r.strategies)
    ensures LogExtends(c, r)
    ensures tick.1.None? || |tick.1.value.history| == 0 ==> r == c
  {
    match tick.1
    case Some(t) => if |t.history| == 0 then c else ProcessStrategies(c, 0, tick.0, t.price, t.history, read)
    case None => c
  }

  // ---------------------------------------------------------------------------
  // Strategies act independently
  // ---------------------------------------------------------------------------

  /** One strategy's handling of a tick as if it were the portfolio's only strategy. */
  function StepAlone(s: LiveStrategy, prices: map<Symbol, real>, risk: RiskManager,
                     sym: Symbol, price: real, history: seq<real>, read: LiveIndicators): LiveStrategy
  {
    StrategyStep(Cio([s], prices, 0, risk, [], [], map[]), 0, sym, price, history, read).strategies[0]
  }

  /** A strategy's handling of the ticks in order, as if it were alone: ticks without a
      history are skipped. */
  function TicksAlone(s: LiveStrategy, prices: map<Symbol, real>, risk: RiskManager,
                      ticks: seq<(Symbol, Option<Tick>)>, read: LiveIndicators): LiveStrategy
    decreases |ticks|
  {
    if ticks == [] then s
    else
      var next := match ticks[0].1
        case Some(t) => if |t.history| == 0 then s else StepAlone(s, prices, risk, ticks[0].0, t.price, t.history, read)
        case None => s;
      TicksAlone(next, prices, risk, ticks[1..], read)
  }

  /** Strategy `j` of `c` and strategy `k` of `d` are the same and see the same prices. */
  predicate SameView(c: Cio, j: nat, d: Cio, k: nat) {
    && j < |c.strategies| && DistinctLiveIds(c.strategies)
    && k < |d.strategies| && DistinctLiveIds(d.strategies)
    && c.strategies[j] == d.strategies[k] && c.prices == d.prices
  }

  /** What a submitted order does to its own strategy depends only on that strategy and
      the last prices. */
  lemma SubmitOrderLocal(c: Cio, j: nat, d: Cio, k: nat, sym: Symbol, side: Side, qty: int)
    requires SameView(c, j, d, k)
    ensures SubmitOrder(c, c.strategies[j].id, sym, side, qty).strategies[j]
            == SubmitOrder(d, d.strategies[k].id, sym, side, qty).strategies[k]
  {
    IndexOfDistinct(c.strategies, j);
    IndexOfDistinct(d.strategies, k);
  }

  lemma ExitPositionLocal(c: Cio, j: nat, d: Cio, k: nat, sym: Symbol)
    requires SameView(c, j, d, k)
    ensures ExitPosition(c, j, sym).strategies[j] == ExitPosition(d, k, sym).strategies[k]
  {
    var s := c.strategies[j];
    SubmitOrderLocal(c, j, d, k, sym, Sell, Position(s, sym));
  }

  lemma EnterLocal(c: Cio, j: nat, d: Cio, k: nat, sym: Symbol, price: real)
    requires SameView(c, j, d, k)
    ensures Enter(c, j, sym, price).strategies[j] == Enter(d, k, sym, price).strategies[k]
  {
    var qty := LiveBuyQuantity(c.strategies[j].cash, price);
    if qty > 0 {
      SubmitOrderLocal(c, j, d, k, sym, Buy, qty);
    }
  }

  lemma ActLocal(c: Cio, j: nat, d: Cio, k: nat, sym: Symbol, price: real, history: seq<real>, read: LiveIndicators)
    requires SameView(c, j, d, k)
    ensures Act(c, j, sym, price, history, read).strategies[j] == Act(d, k, sym, price, history, read).strategies[k]
  {
    var s := c.strategies[j];
    var dec := Decide(s, sym, price, history, read);
    var c1 := Replace(c, j, dec.1);
    var d1 := Replace(d, k, dec.1);
    assert SameView(c1, j, d1, k);
    if dec.0 == BuySignal {
      EnterLocal(c1, j, d1, k, sym, price);
    } else if dec.0 == SellSignal && Position(dec.1, sym) > 0 {
      ExitPositionLocal(c1, j, d1, k, sym);
    }
  }

  lemma StrategyStepLocal(c: Cio, j: nat, d: Cio, k: nat, sym: Symbol, price: real, history: seq<real>, read: LiveIndicators)
    requires SameView(c, j, d, k)
    ensures StrategyStep(c, j, sym, price, history, read).strategies[j] == StrategyStep(d, k, sym, price, history, read).strategies[k]
  {
    var s := c.strategies[j];
    if LiveStopLossHit(s, sym, price) || LiveTakeProfitHit(s, sym, price) {
      ExitPositionLocal(c, j, d, k, sym);
    } else {
      ActLocal(c, j, d, k, sym, price, history, read);
    }
  }

  /** A strategy handles a tick exactly as it would alone: the trade count, the alerts,
      the trade log, the ledger and the other strategies play no part. */
  lemma StrategyStepIsAlone(c: Cio, j: nat, sym: Symbol, price: real, history: seq<real>, read: LiveIndicators)
    requires j < |c.strategies| && DistinctLiveIds(c.strategies)
    ensures StrategyStep(c, j, sym, price, history, read).strategies[j]
            == StepAlone(c.strategies[j], c.prices, c.risk, sym, price, history, read)
  {
    StrategyStepLocal(c, j, Cio([c.strategies[j]], c.prices, 0, c.risk, [], [], map[]), 0, sym, price, history, read);
  }

  /** `on_market_data`: prices first, then the strategies symbol by symbol. No strategy
      is added or removed, none is driven into negative cash or a short position, and
      every fill is counted and logged. */
  function OnMarketData(c: Cio, ticks: seq<(Symbol, Option<Tick>)>, read: LiveIndicators): (r: Cio)
    requires DistinctLiveIds(c.strategies)
    ensures r.prices == UpdatePrices(c.prices, ticks) && r.risk == c.risk
    ensures |r.strategies| == |c.strategies| && LiveIds(r.strategies) == LiveIds(c.strategies)
    ensures AllLiveSolvent(c.strategies) ==> AllLiveSolvent(r.strategies)
    ensures LogExtends(c, r)
  {
    ProcessTicks(c.(prices := UpdatePrices(c.prices, ticks)), ticks, read)
  }

  // ---------------------------------------------------------------------------
  // Equity is conserved by trading
  // ---------------------------------------------------------------------------

  /** Replacing a strategy by one with the same book keeps the total equity. */
  lemma SameBookKeepsEquity(ss: seq<LiveStrategy>, j: nat, s: LiveStrategy, prices: map<Symbol, real>)
    requires j < |ss| && SameLiveBook(s, ss[j])
    ensures TotalEquity(ss[j := s], prices) == TotalEquity(ss, prices)
  {
    TotalEquityUpdate(ss, prices, j, s);
  }

  lemma ExitPositionKeepsEquity(c: Cio, j: nat, sym: Symbol)
    requires j < |c.strategies| && DistinctLiveIds(c.strategies)
    ensures TotalEquity(ExitPosition(c, j, sym).strategies, c.prices) == TotalEquity(c.strategies, c.prices)
  {
    var s := c.strategies[j];
    var c1 := SubmitOrder(c, s.id, sym, Sell, Position(s, sym));
    SubmitOrderKeepsEquity(c, s.id, sym, Sell, Position(s, sym));
    SameBookKeepsEquity(c1.strategies, j, ClearExitPrices(c1.strategies[j], sym), c.prices);
  }

  lemma ActKeepsEquity(c: Cio, j: nat, sym: Symbol, price: real, history: seq<real>, read: LiveIndicators)
    requires j < |c.strategies| && DistinctLiveIds(c.strategies)
    ensures TotalEquity(Act(c, j, sym, price, history, read).strategies, c.prices) == TotalEquity(c.strategies, c.prices)
  {
    var s := c.strategies[j];
    var d := Decide(s, sym, price, history, read);
    var c1 := Replace(c, j, d.1);
    SameBookKeepsEquity(c.strategies, j, d.1, c.prices);
    if d.0 == BuySignal {
      var qty := LiveBuyQuantity(d.1.cash, price);
      if qty > 0 {
        SubmitOrderKeepsEquity(c1, s.id, sym, Buy, qty);
      }
    } else if d.0 == SellSignal && Position(d.1, sym) > 0 {
      ExitPositionKeepsEquity(c1, j, sym);
    }
  }

  lemma StrategyStepKeepsEquity(c: Cio, j: nat, sym: Symbol, price: real, history: seq<real>, read: LiveIndicators)
    requires j < |c.strategies| && DistinctLiveIds(c.strategies)
    ensures TotalEquity(StrategyStep(c, j, sym, price, history, read).strategies, c.prices)
            == TotalEquity(c.strategies, c.prices)
  {
    var s := c.strategies[j];
    if LiveStopLossHit(s, sym, price) || LiveTakeProfitHit(s, sym, price) {
      ExitPositionKeepsEquity(c, j, sym);
    } else {
      ActKeepsEquity(c, j, sym, price, history, read);
    }
  }

  lemma {:induction false} ProcessStrategiesKeepsEquity(
    c: Cio, j: nat, sym: Symbol, price: real, history: seq<real>, read: LiveIndicators)
    requires j <= |c.strategies| && DistinctLiveIds(c.strategies)
    ensures TotalEquity(ProcessStrategies(c, j, sym, price, history, read).strategies, c.prices)
            == TotalEquity(c.strategies, c.prices)
    decreases |c.strategies| - j
  {
    if j < |c.strategies| {
      var c1 := StrategyStep(c, j, sym, price, history, read);
      StrategyStepKeepsEquity(c, j, sym, price, history, read);
      DistinctByIds(c.strategies, c1.strategies);
      ProcessStrategiesKeepsEquity(c1, j + 1, sym, price, history, read);
    }
  }

  lemma {:induction false} ProcessTicksKeepsEquity(c: Cio, ticks: seq<(Symbol, Option<Tick>)>, read: LiveIndicators)
    requires DistinctLiveIds(c.strategies)
    ensures TotalEquity(ProcessTicks(c, ticks, read).strategies, c.prices) == TotalEquity(c.strategies, c.prices)
    decreases |ticks|
  {
    if ticks != [] {
      var next := ProcessTick(c, ticks[0], read);
      if ticks[0].1.Some? && |ticks[0].1.value.history| > 0 {
        ProcessStrategiesKeepsEquity(c, 0, ticks[0].0, ticks[0].1.value.price, ticks[0].1.value.history, read);
      }
      DistinctByIds(c.strategies, next.strategies);
      ProcessTicksKeepsEquity(next, ticks[1..], read);
    }
  }

  /** Orders settle at the last known prices without costs, so a round of market data
      leaves the portfolio's total equity, marked at the new prices, where the price
      update alone put it. */
  lemma OnMarketDataKeepsEquity(c: Cio, ticks: seq<(Symbol, Option<Tick>)>, read: LiveIndicators)
    requires DistinctLiveIds(c.strategies)
    ensures var r := OnMarketData(c, ticks, read);
            TotalEquity(r.strategies, r.prices) == TotalEquity(c.strategies, r.prices)
  {
    ProcessTicksKeepsEquity(c.(prices := UpdatePrices(c.prices, ticks)), ticks, read);
  }

  /** A stop-loss whose sale the risk gate refuses still clears the exit prices: the
      position stays open with no stop-loss armed, and one alert is raised. */
  lemma RefusedStopLossDisarms(c: Cio, j: nat, sym: Symbol, price: real, history: seq<real>, read: LiveIndicators)
    requires j < |c.strategies| && DistinctLiveIds(c.strategies)
    requires LiveStopLossHit(c.strategies[j], sym, price)
    requires Denied(c, sym, Position(c.strategies[j], sym))
    ensures var r := StrategyStep(c, j, sym, price, history, read);
            && Position(r.strategies[j], sym) == Position(c.strategies[j], sym) > 0
            && Lookup(r.strategies[j].stopLoss, sym) == 0.0
            && |r.alerts| == |c.alerts| + 1 && r.log == c.log
  {
    var s := c.strategies[j];
    var c1 := SubmitOrder(c, s.id, sym, Sell, Position(s, sym));
    assert |c1.alerts| == |c.alerts| + 1;
  }

  // ---------------------------------------------------------------------------
  // Start-up
  // ---------------------------------------------------------------------------

  /** Every held symbol of every strategy is priced at zero (or not at all). */
  lemma {:induction false} TotalEquityUnpriced(ss: seq<LiveStrategy>, prices: map<Symbol, real>)
    requires forall j, sym | 0 <= j < |ss| && sym in ss[j].positions :: Lookup(prices, sym) == 0.0
    requires forall j | 0 <= j < |ss| :: ss[j].cash == 0.0
    ensures TotalEquity(ss, prices) == 0.0
  {
    if ss != [] {
      PositionValueUnpriced(ss[0].positions, prices);
      TotalEquityUnpriced(ss[1..], prices);
    }
  }

  /** The registry's live strategies, in order, with their positions merged from the
      saved ledger when there is one; no cash is allocated yet. */
  function Registered(trend: Params, meanRev: Params, saved: Option<Ledger>): (ss: seq<LiveStrategy>)
    ensures LiveIds(ss) == ["Trend", "MeanReversion"]
    ensures ss[0].params == trend && ss[1].params == meanRev
    ensures forall j | 0 <= j < |ss| :: ss[j].cash == 0.0
    ensures saved.None? ==> forall j | 0 <= j < |ss| :: ss[j].positions == map[]
    ensures saved.Some? ==>
              forall j | 0 <= j < |ss| ::
                ss[j].positions == if ss[j].id in saved.value then saved.value[ss[j].id] else map[]
  {
    var blank := [NewLiveStrategy("Trend", trend), NewLiveStrategy("MeanReversion", meanRev)];
    assert LiveIds(blank) == ["Trend", "MeanReversion"];
    if saved.Some? then
      var r := Merge(blank, saved.value);
      assert forall j | 0 <= j < |r| && r[j].id in saved.value :: r[j].positions == saved.value[r[j].id] by {
        forall j | 0 <= j < |r| && r[j].id in saved.value ensures r[j].positions == saved.value[r[j].id] {
          assert r[j].positions.Keys == saved.value[r[j].id].Keys;
        }
      }
      r
    else blank
  }

  /** Every traded symbol's last known price starts at 0. */
  function InitialPrices(symbols: seq<Symbol>): (prices: map<Symbol, real>)
    ensures forall sym :: sym in prices <==> sym in symbols
    ensures forall sym | sym in prices :: prices[sym] == 0.0
  {
    map sym | sym in symbols :: 0.0
  }

  /** The chief investment officer's construction: the registry's two live strategies,
      every traded symbol's last price at 0, positions merged from the saved ledger if
      there is one, the day assessed at the equity of that state, and the initial
      capital split evenly. As every price is still 0 and no cash is allocated yet, the
      assessed peak equity is 0 whatever was loaded. */
  ghost function NewCio(trend: Params, meanRev: Params, symbols: seq<Symbol>, saved: Option<Ledger>): (c: Cio)
    ensures LiveIds(c.strategies) == ["Trend", "MeanReversion"] && DistinctLiveIds(c.strategies)
    ensures c.strategies[0].params == trend && c.strategies[1].params == meanRev
    ensures forall j | 0 <= j < |c.strategies| :: c.strategies[j].cash == 500000.0
    ensures TotalLiveCash(c.strategies) == InitialCapital
    ensures c.risk == RiskManager(0.0, false)
    ensures forall sym :: sym in c.prices <==> sym in symbols
    ensures forall sym | sym in c.prices :: c.prices[sym] == 0.0
    ensures c.tradeCount == 0 && c.log == [] && c.alerts == []
    ensures saved.None? ==> forall j | 0 <= j < |c.strategies| :: c.strategies[j].positions == map[]
    ensures saved.Some? ==>
              forall j | 0 <= j < |c.strategies| ::
                c.strategies[j].positions
                == if c.strategies[j].id in saved.value then saved.value[c.strategies[j].id] else map[]
    ensures c.ledger == if saved.Some? then saved.value else map[]
  {
    var loaded := Registered(trend, meanRev, saved);
    var prices := InitialPrices(symbols);
    TotalEquityUnpriced(loaded, prices);
    RebalanceConservesCapital(loaded, InitialCapital);
    assert Share(InitialCapital, 2) == 500000.0;
    Cio(Rebalance(loaded, InitialCapital), prices, 0, AssessNewDay(FreshRiskManager, TotalEquity(loaded, prices)),
        [], [], if saved.Some? then saved.value else map[])
  }
}
