/** The backtest strategies: one long-only position per strategy in the simulated
    instrument, entry sizing by average true range, and exit prices armed on entry.
    Indicator values (moving averages, standard deviation, the approximate RSI and the
    exponentially weighted ATR) are abstract inputs collected in a `Reading`. */
module AtlasStrategies {
  import opened Trading

  datatype Strategy = Strategy(
    id: StrategyId,
    params: Params,
    cash: real,
    shares: int,
    stopLoss: real,    // 0 when inactive
    takeProfit: real)  // 0 when inactive

  /** Indicator values computed from the simulator's history for one strategy. */
  datatype Reading = Reading(
    shortSma: real,
    longSma: real,
    sma: real,
    stdDev: real,
    rsi: real,
    hasOhlcColumns: bool,   // the history frame has High, Low and Close columns
    ewmAtr: Option<real>)   // last exponentially weighted true range; None when NaN

  datatype Decision = Decision(signal: Signal, quantity: int, strategy: Strategy)

  /** The ATR period the strategies use. */
  const AtrPeriod: nat := 14

  /** A freshly constructed strategy: no cash, no shares, no exits. */
  function NewStrategy(id: StrategyId, params: Params): (s: Strategy)
    ensures s.id == id && s.params == params
    ensures s.cash == 0.0 && s.shares == 0 && !ExitsArmed(s)
  {
    Strategy(id, params, 0.0, 0, 0.0, 0.0)
  }

  predicate ExitsArmed(s: Strategy) {
    s.stopLoss != 0.0 || s.takeProfit != 0.0
  }

  /** Two strategy states that differ at most in their exit prices. */
  predicate SameBook(a: Strategy, b: Strategy) {
    a.id == b.id && a.params == b.params && a.cash == b.cash && a.shares == b.shares
  }

  /** Marked-to-market equity of one strategy. */
  function Equity(s: Strategy, price: real): (e: real)
    ensures s.shares == 0 ==> e == s.cash
    ensures 0.0 <= s.cash && 0 <= s.shares && 0.0 <= price ==> s.cash <= e
  {
    s.cash + s.shares as real * price
  }

  /** Assigns capital: the cash is replaced and any shares are dropped. */
  function SetCapital(s: Strategy, capital: real): (r: Strategy)
    ensures r.id == s.id && r.params == s.params
    ensures r.stopLoss == s.stopLoss && r.takeProfit == s.takeProfit
    ensures forall price :: Equity(r, price) == capital
  {
    s.(cash := capital, shares := 0)
  }

  function ClearExits(s: Strategy): (r: Strategy)
    ensures SameBook(r, s) && !ExitsArmed(r)
  {
    s.(stopLoss := 0.0, takeProfit := 0.0)
  }

  function ArmExits(s: Strategy, price: real): (r: Strategy)
    ensures SameBook(r, s)
    ensures 0.0 < price && 0.0 < s.params.stopLossPct < 1.0 && 0.0 < s.params.takeProfitPct ==>
              0.0 < r.stopLoss < price < r.takeProfit
  {
    var r := s.(stopLoss := StopLossPrice(price, s.params.stopLossPct),
                takeProfit := TakeProfitPrice(price, s.params.takeProfitPct));
    if 0.0 < price && 0.0 < s.params.stopLossPct < 1.0 && 0.0 < s.params.takeProfitPct then
      ExitPricesBracketEntry(price, s.params.stopLossPct, s.params.takeProfitPct);
      r
    else r
  }

  /** The average true range, or 0 when the history is too short or lacks the columns
      (or the smoothed value is NaN). */
  function Atr(historyLen: nat, reading: Reading): (atr: real)
    ensures historyLen < AtrPeriod || !reading.hasOhlcColumns || reading.ewmAtr.None? ==> atr == 0.0
    ensures atr != 0.0 ==> reading.ewmAtr == Some(atr)
  {
    if historyLen < AtrPeriod || !reading.hasOhlcColumns then 0.0
    else match reading.ewmAtr
      case Some(a) => a
      case None => 0.0
  }

  /** Entry condition while flat: a bullish crossover confirmed by momentum, or a close
      below the lower band confirmed by an oversold oscillator. */
  predicate EntryCondition(p: Params, price: real, r: Reading) {
    match p
    case TrendParams(_, _, _, bullish, _, _) => r.shortSma > r.longSma && r.rsi > bullish
    case MeanRevParams(_, k, _, oversold, _, _) => price < r.sma - k * r.stdDev && r.rsi < oversold
  }

  /** Exit condition while holding: the short average below the long one, or a close
      back above the mean. */
  predicate ExitCondition(p: Params, price: real, r: Reading) {
    match p
    case TrendParams(_, _, _, _, _, _) => r.shortSma < r.longSma
    case MeanRevParams(_, _, _, _, _, _) => price > r.sma
  }

  /** One decision of a backtest strategy given the history length, the closing price
      and the indicator reading. Only the exit prices of the strategy may change. */
  function DecideAction(s: Strategy, historyLen: nat, price: real, r: Reading): (d: Decision)
    ensures SameBook(d.strategy, s)
    ensures historyLen < WarmupWindow(s.params) ==> d == Decision(Hold, 0, s)
    ensures d.signal == BuySignal <==>
              && historyLen >= WarmupWindow(s.params) && s.shares == 0
              && EntryCondition(s.params, price, r) && Atr(historyLen, r) > 0.0
    ensures d.signal == BuySignal ==>
              && d.quantity == Trunc(s.cash * RiskPerTrade / Atr(historyLen, r))
              && d.strategy.stopLoss == StopLossPrice(price, s.params.stopLossPct)
              && d.strategy.takeProfit == TakeProfitPrice(price, s.params.takeProfitPct)
    ensures d.signal == SellSignal <==>
              historyLen >= WarmupWindow(s.params) && s.shares != 0 && ExitCondition(s.params, price, r)
    ensures d.signal == SellSignal ==> d.quantity == 0 && !ExitsArmed(d.strategy)
    ensures d.signal == Hold ==> d.quantity == 0 && d.strategy == s
  {
    if historyLen < WarmupWindow(s.params) then Decision(Hold, 0, s)
    else if s.shares == 0 then
      if EntryCondition(s.params, price, r) then
        var atr := Atr(historyLen, r);
        if atr > 0.0 then
          Decision(BuySignal, Trunc(s.cash * RiskPerTrade / atr), ArmExits(s, price))
        else Decision(Hold, 0, s)
      else Decision(Hold, 0, s)
    else if ExitCondition(s.params, price, r) then
      Decision(SellSignal, 0, ClearExits(s))
    else Decision(Hold, 0, s)
  }

  /** The trend-following family in terms of its indicators: buys on a bullish
      crossover with momentum when flat and the ATR is positive, sells when the short
      average falls below the long one while holding. */
  lemma TrendFollowingRules(s: Strategy, historyLen: nat, price: real, r: Reading)
    requires s.params.TrendParams?
    requires historyLen >= s.params.longWindow
    ensures DecideAction(s, historyLen, price, r).signal == BuySignal <==>
              s.shares == 0 && r.shortSma > r.longSma && r.rsi > s.params.rsiBullishThreshold
              && Atr(historyLen, r) > 0.0
    ensures DecideAction(s, historyLen, price, r).signal == SellSignal <==>
              s.shares != 0 && r.shortSma < r.longSma
  {
  }

  /** The mean-reversion family: buys below the lower band when oversold, exits on a
      close above the mean (not the upper band). */
  lemma MeanReversionRules(s: Strategy, historyLen: nat, price: real, r: Reading)
    requires s.params.MeanRevParams?
    requires historyLen >= s.params.window
    ensures DecideAction(s, historyLen, price, r).signal == BuySignal <==>
              s.shares == 0 && price < r.sma - s.params.stdDevs * r.stdDev
              && r.rsi < s.params.rsiOversoldThreshold && Atr(historyLen, r) > 0.0
    ensures DecideAction(s, historyLen, price, r).signal == SellSignal <==>
              s.shares != 0 && price > r.sma
  {
  }

  /** Sizing: with non-negative cash a buy never asks for a negative quantity, and the
      quantity never risks more than 2% of cash per unit of ATR. */
  lemma BuyQuantityBounded(s: Strategy, historyLen: nat, price: real, r: Reading)
    requires 0.0 <= s.cash
    requires DecideAction(s, historyLen, price, r).signal == BuySignal
    ensures var d := DecideAction(s, historyLen, price, r);
            0 <= d.quantity && d.quantity as real * Atr(historyLen, r) <= s.cash * RiskPerTrade
  {
    var atr := Atr(historyLen, r);
    var q := Trunc(s.cash * RiskPerTrade / atr);
    assert q as real <= s.cash * RiskPerTrade / atr;
    MulMonotone(q as real, s.cash * RiskPerTrade / atr, atr);
  }

  lemma MulMonotone(a: real, b: real, c: real)
    requires a <= b && 0.0 < c
    ensures a * c <= b * c
  {
  }
}
