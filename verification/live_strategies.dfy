/** The live strategies: cash plus per-symbol positions and exit prices (dictionaries
    whose missing keys read as zero), equity marked to the last known prices, and the
    trend-following and mean-reversion decision rules on a price history. Indicator
    values (moving averages, standard deviation, RSI) are abstract inputs collected in a
    `LiveReading`. */
module LiveStrategies {
  import opened Trading

  datatype LiveStrategy = LiveStrategy(
    id: StrategyId,
    params: Params,
    cash: real,
    positions: map<Symbol, int>,
    stopLoss: map<Symbol, real>,
    takeProfit: map<Symbol, real>)

  /** A freshly constructed live strategy: no cash, no positions, no exits. */
  function NewLiveStrategy(id: StrategyId, params: Params): (s: LiveStrategy)
    ensures s.id == id && s.params == params && s.cash == 0.0
    ensures s.positions == map[] && s.stopLoss == map[] && s.takeProfit == map[]
  {
    LiveStrategy(id, params, 0.0, map[], map[], map[])
  }

  /** `positions.get(symbol, 0)`. */
  function Position(s: LiveStrategy, sym: Symbol): int {
    if sym in s.positions then s.positions[sym] else 0
  }

  /** `dict.get(key, 0)` on a price-valued dictionary. */
  function Lookup(m: map<Symbol, real>, sym: Symbol): real {
    if sym in m then m[sym] else 0.0
  }

  /** Cash is non-negative and no position is short. */
  predicate LiveSolvent(s: LiveStrategy) {
    0.0 <= s.cash && forall sym | sym in s.positions :: 0 <= s.positions[sym]
  }

  /** Two strategy states that differ at most in their exit prices. */
  predicate SameLiveBook(a: LiveStrategy, b: LiveStrategy) {
    a.id == b.id && a.params == b.params && a.cash == b.cash && a.positions == b.positions
  }

  // ---------------------------------------------------------------------------
  // Marking to market
  // ---------------------------------------------------------------------------

  /** The market value of each held symbol at the given prices; a symbol without a
      known price is valued at zero. */
  function Valuation(positions: map<Symbol, int>, prices: map<Symbol, real>): (v: map<Symbol, real>)
    ensures v.Keys == positions.Keys
    ensures forall sym | sym in v :: v[sym] == Value(positions[sym], Lookup(prices, sym))
  {
    map sym | sym in positions :: Value(positions[sym], Lookup(prices, sym))
  }

  /** The sum of a map's values, taking the keys in an arbitrary order. */
  ghost function MapSum(m: map<Symbol, real>): real
    decreases |m|
  {
    if |m| == 0 then 0.0
    else
      var sym :| sym in m;
      m[sym] + MapSum(m - {sym})
  }

  /** Any key may be taken out first: the sum does not depend on the order. */
  lemma {:induction false} MapSumRemove(m: map<Symbol, real>, sym: Symbol)
    requires sym in m
    ensures MapSum(m) == m[sym] + MapSum(m - {sym})
    decreases |m|
  {
    assert |m| != 0;
    var first :| first in m && MapSum(m) == m[first] + MapSum(m - {first});
    if first != sym {
      MapSumRemove(m - {first}, sym);
      MapSumRemove(m - {sym}, first);
      RemoveCommutes(m, sym, first);
    }
  }

  lemma RemoveCommutes(m: map<Symbol, real>, a: Symbol, b: Symbol)
    ensures (m - {a}) - {b} == (m - {b}) - {a}
  {
  }

  /** Setting one key changes the sum by exactly that key's change. */
  lemma MapSumUpdate(m: map<Symbol, real>, sym: Symbol, v: real)
    ensures MapSum(m[sym := v]) == MapSum(m) - (if sym in m then m[sym] else 0.0) + v
  {
    var updated := m[sym := v];
    MapSumRemove(updated, sym);
    assert updated - {sym} == m - {sym};
    if sym in m {
      MapSumRemove(m, sym);
    } else {
      assert m - {sym} == m;
    }
  }

  /** A map of zeros sums to zero. */
  lemma {:induction false} MapSumZero(m: map<Symbol, real>)
    requires forall sym | sym in m :: m[sym] == 0.0
    ensures MapSum(m) == 0.0
    decreases |m|
  {
    if |m| > 0 {
      var sym :| sym in m;
      MapSumRemove(m, sym);
      MapSumZero(m - {sym});
    }
  }

  /** The market value of a position map: the sum of its valuation. */
  ghost function PositionValue(positions: map<Symbol, int>, prices: map<Symbol, real>): real {
    MapSum(Valuation(positions, prices))
  }

  /** Setting one symbol's quantity changes the value by exactly that symbol's change. */
  lemma PositionValueUpdate(positions: map<Symbol, int>, prices: map<Symbol, real>, sym: Symbol, qty: int)
    ensures PositionValue(positions[sym := qty], prices) ==
              PositionValue(positions, prices)
              - (if sym in positions then Value(positions[sym], Lookup(prices, sym)) else 0.0)
              + Value(qty, Lookup(prices, sym))
  {
    var v := Valuation(positions, prices);
    ValuationUpdate(positions, prices, sym, qty);
    MapSumUpdate(v, sym, Value(qty, Lookup(prices, sym)));
  }

  lemma ValuationUpdate(positions: map<Symbol, int>, prices: map<Symbol, real>, sym: Symbol, qty: int)
    ensures Valuation(positions[sym := qty], prices) == Valuation(positions, prices)[sym := Value(qty, Lookup(prices, sym))]
  {
  }

  /** When every held symbol is priced at zero (or unknown), positions are worth nothing. */
  lemma PositionValueUnpriced(positions: map<Symbol, int>, prices: map<Symbol, real>)
    requires forall sym | sym in positions :: Lookup(prices, sym) == 0.0
    ensures PositionValue(positions, prices) == 0.0
  {
    MapSumZero(Valuation(positions, prices));
  }

  /** `get_equity`: cash plus every position marked at its last known price. */
  ghost function Equity(s: LiveStrategy, prices: map<Symbol, real>): real {
    s.cash + PositionValue(s.positions, prices)
  }

  /** A flat book is worth its cash, whatever the prices. */
  lemma FlatEquity(s: LiveStrategy, prices: map<Symbol, real>)
    requires forall sym | sym in s.positions :: s.positions[sym] == 0
    ensures Equity(s, prices) == s.cash
  {
    MapSumZero(Valuation(s.positions, prices));
  }

  // ---------------------------------------------------------------------------
  // Capital and exit prices
  // ---------------------------------------------------------------------------

  /** `set_capital`: replaces the cash and, unlike the backtest strategy, keeps the
      positions, so equity moves by exactly the change in cash. */
  function SetCapital(s: LiveStrategy, capital: real): (r: LiveStrategy)
    ensures r.cash == capital
    ensures r.id == s.id && r.params == s.params && r.positions == s.positions
    ensures r.stopLoss == s.stopLoss && r.takeProfit == s.takeProfit
    ensures forall prices :: Equity(r, prices) == Equity(s, prices) - s.cash + capital
  {
    s.(cash := capital)
  }

  /** `_set_exit_prices`: arms the stop-loss and take-profit for one symbol from the
      entry price. */
  function SetExitPrices(s: LiveStrategy, sym: Symbol, entry: real): (r: LiveStrategy)
    ensures SameLiveBook(r, s)
    ensures r.stopLoss == s.stopLoss[sym := StopLossPrice(entry, s.params.stopLossPct)]
    ensures r.takeProfit == s.takeProfit[sym := TakeProfitPrice(entry, s.params.takeProfitPct)]
    ensures 0.0 < entry && 0.0 < s.params.stopLossPct < 1.0 && 0.0 < s.params.takeProfitPct ==>
              0.0 < Lookup(r.stopLoss, sym) < entry < Lookup(r.takeProfit, sym)
  {
    var r := s.(stopLoss := s.stopLoss[sym := StopLossPrice(entry, s.params.stopLossPct)],
                takeProfit := s.takeProfit[sym := TakeProfitPrice(entry, s.params.takeProfitPct)]);
    if 0.0 < entry && 0.0 < s.params.stopLossPct < 1.0 && 0.0 < s.params.takeProfitPct then
      ExitPricesBracketEntry(entry, s.params.stopLossPct, s.params.takeProfitPct);
      r
    else r
  }

  /** `_clear_exit_prices`: both exits of one symbol read zero (inactive) afterwards. */
  function ClearExitPrices(s: LiveStrategy, sym: Symbol): (r: LiveStrategy)
    ensures SameLiveBook(r, s)
    ensures Lookup(r.stopLoss, sym) == 0.0 && Lookup(r.takeProfit, sym) == 0.0
    ensures forall other | other != sym ::
              Lookup(r.stopLoss, other) == Lookup(s.stopLoss, other)
              && Lookup(r.takeProfit, other) == Lookup(s.takeProfit, other)
  {
    s.(stopLoss := s.stopLoss[sym := 0.0], takeProfit := s.takeProfit[sym := 0.0])
  }

  // ---------------------------------------------------------------------------
  // Decision rules
  // ---------------------------------------------------------------------------

  /** Indicator values over the tail of the history; `rsi` is None when the RSI could
      not be computed. */
  datatype LiveReading = LiveReading(shortMa: real, longMa: real, ma: real, std: real, rsi: Option<real>)

  /** Indicator values as a function of a strategy's parameters and the price history. */
  type LiveIndicators = (Params, seq<real>) -> LiveReading

  /** Entry while flat: a bullish crossover with RSI above the threshold, or a price
      below the lower band with RSI below the oversold level and a non-zero band. */
  predicate LiveEntry(p: Params, price: real, r: LiveReading)
    requires r.rsi.Some?
  {
    match p
    case TrendParams(_, _, _, bullish, _, _) => r.shortMa > r.longMa && r.rsi.value > bullish
    case MeanRevParams(_, k, _, oversold, _, _) =>
      r.std != 0.0 && price < r.ma - k * r.std && r.rsi.value < oversold
  }

  /** Exit while holding: the short average below the long one, or a price above the
      upper band (with a non-zero band). */
  predicate LiveExit(p: Params, price: real, r: LiveReading) {
    match p
    case TrendParams(_, _, _, _, _, _) => r.shortMa < r.longMa
    case MeanRevParams(_, k, _, _, _, _) => r.std != 0.0 && price > r.ma + k * r.std
  }

  /** The guards every decision passes first: enough history and a computable RSI. */
  predicate Ready(s: LiveStrategy, history: seq<real>, r: LiveReading) {
    |history| > 0 && |history| >= WarmupWindow(s.params) && r.rsi.Some?
  }

  /** `decide_action` of both live families for one symbol. Only the exit prices of the
      strategy may change, and only a BUY changes them. */
  function Decide(s: LiveStrategy, sym: Symbol, price: real, history: seq<real>, read: LiveIndicators)
    : (d: (Signal, LiveStrategy))
    ensures SameLiveBook(d.1, s)
    ensures !Ready(s, history, read(s.params, history)) ==> d == (Hold, s)
    ensures d.0 == BuySignal <==>
              && Ready(s, history, read(s.params, history)) && Position(s, sym) == 0
              && LiveEntry(s.params, price, read(s.params, history))
    ensures d.0 == BuySignal ==> d.1 == SetExitPrices(s, sym, price)
    ensures d.0 == SellSignal <==>
              && Ready(s, history, read(s.params, history)) && Position(s, sym) > 0
              && LiveExit(s.params, price, read(s.params, history))
    ensures d.0 != BuySignal ==> d.1 == s
  {
    var r := read(s.params, history);
    if |history| == 0 || |history| < WarmupWindow(s.params) then (Hold, s)
    else if r.rsi.None? then (Hold, s)
    else
      match s.params
      case TrendParams(_, _, _, bullish, _, _) =>
        if r.shortMa > r.longMa && r.rsi.value > bullish && Position(s, sym) == 0 then
          (BuySignal, SetExitPrices(s, sym, price))
        else if r.shortMa < r.longMa && Position(s, sym) > 0 then (SellSignal, s)
        else (Hold, s)
      case MeanRevParams(_, k, _, oversold, _, _) =>
        if r.std == 0.0 then (Hold, s)
        else
          var lower := r.ma - k * r.std;
          var upper := r.ma + k * r.std;
          if price < lower && r.rsi.value < oversold && Position(s, sym) == 0 then
            (BuySignal, SetExitPrices(s, sym, price))
          else if price > upper && Position(s, sym) > 0 then (SellSignal, s)
          else (Hold, s)
  }

  /** A strategy holding the symbol never receives BUY, and a flat one never SELL. */
  lemma SignalMatchesPosition(s: LiveStrategy, sym: Symbol, price: real, history: seq<real>, read: LiveIndicators)
    ensures var d := Decide(s, sym, price, history, read);
            (Position(s, sym) != 0 ==> d.0 != BuySignal) && (Position(s, sym) <= 0 ==> d.0 != SellSignal)
  {
  }

  /** The live trend rules in terms of the indicators, once warmed up with an RSI. */
  lemma LiveTrendRules(s: LiveStrategy, sym: Symbol, price: real, history: seq<real>, read: LiveIndicators)
    requires s.params.TrendParams? && Ready(s, history, read(s.params, history))
    ensures var r := read(s.params, history);
            var d := Decide(s, sym, price, history, read);
            && (d.0 == BuySignal <==>
                  r.shortMa > r.longMa && r.rsi.value > s.params.rsiBullishThreshold && Position(s, sym) == 0)
            && (d.0 == SellSignal <==> r.shortMa < r.longMa && Position(s, sym) > 0)
  {
  }

  /** The live mean-reversion rules: a zero band holds; otherwise buy below the lower
      band when oversold and flat, sell above the upper band (not the mean) when
      holding. */
  lemma LiveMeanReversionRules(s: LiveStrategy, sym: Symbol, price: real, history: seq<real>, read: LiveIndicators)
    requires s.params.MeanRevParams? && Ready(s, history, read(s.params, history))
    ensures var r := read(s.params, history);
            var k := s.params.stdDevs;
            var d := Decide(s, sym, price, history, read);
            && (r.std == 0.0 ==> d == (Hold, s))
            && (d.0 == BuySignal <==>
                  r.std != 0.0 && price < r.ma - k * r.std && r.rsi.value < s.params.rsiOversoldThreshold
                  && Position(s, sym) == 0)
            && (d.0 == SellSignal <==> r.std != 0.0 && price > r.ma + k * r.std && Position(s, sym) > 0)
  {
  }
}
