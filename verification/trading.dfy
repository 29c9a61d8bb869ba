/** Vocabulary shared by the backtest engine (Atlas) and the live engine (Citadel):
    order sides, strategy signals, strategy-family parameters, exit-price formulas and
    Python's truncating integer conversion. */
module Trading {

  datatype Option<T> = None | Some(value: T)

  type Symbol = string
  type StrategyId = string

  datatype Side = Buy | Sell

  /** The three signals a strategy can emit (BUY = 1, SELL = -1, HOLD = 0 in the source). */
  datatype Signal = BuySignal | SellSignal | Hold

  /** Parameters of the two strategy families. Both engines read the same fields; the
      live configuration also carries a RISK_PER_TRADE field that no code reads. */
  datatype Params =
    | TrendParams(shortWindow: nat, longWindow: nat, rsiWindow: nat,
                  rsiBullishThreshold: real, takeProfitPct: real, stopLossPct: real)
    | MeanRevParams(window: nat, stdDevs: real, rsiWindow: nat,
                    rsiOversoldThreshold: real, takeProfitPct: real, stopLossPct: real)

  /** History length below which a strategy only holds: the long window of the trend
      family, the band window of the mean-reversion family. */
  function WarmupWindow(p: Params): nat {
    match p
    case TrendParams(_, longWindow, _, _, _, _) => longWindow
    case MeanRevParams(window, _, _, _, _, _) => window
  }

  /** Every strategy object fixes its risk fraction at 2% on construction. */
  const RiskPerTrade: real := 0.02

  /** Python's `int(x)` on a float: truncation toward zero. */
  function Trunc(x: real): (n: int)
    ensures 0.0 <= x ==> 0 <= n && n as real <= x < n as real + 1.0
    ensures x < 0.0 ==> n <= 0 && n as real - 1.0 < x <= n as real
  {
    if x >= 0.0 then x.Floor else -((-x).Floor)
  }

  /** Stop-loss level armed on entry: `entry * (1 - pct)`. */
  function StopLossPrice(entry: real, pct: real): (p: real)
    ensures 0.0 < entry && 0.0 < pct ==> p < entry
    ensures pct == 0.0 ==> p == entry
  {
    entry * (1.0 - pct)
  }

  /** Take-profit level armed on entry: `entry * (1 + pct)`. */
  function TakeProfitPrice(entry: real, pct: real): (p: real)
    ensures 0.0 < entry && 0.0 < pct ==> entry < p
    ensures pct == 0.0 ==> p == entry
  {
    entry * (1.0 + pct)
  }

  /** For a positive entry price and percentages in (0, 1) and (0, inf), the armed exits
      bracket the entry price strictly and the stop stays positive. */
  lemma ExitPricesBracketEntry(entry: real, slPct: real, tpPct: real)
    requires 0.0 < entry && 0.0 < slPct < 1.0 && 0.0 < tpPct
    ensures 0.0 < StopLossPrice(entry, slPct) < entry < TakeProfitPrice(entry, tpPct)
  {
    MulPositive(entry, 1.0 - slPct);
  }

  lemma MulPositive(a: real, b: real)
    requires 0.0 < a && 0.0 < b
    ensures 0.0 < a * b
  {
  }

  /** The market value of `qty` shares at `price`. */
  function Value(qty: int, price: real): real {
    qty as real * price
  }

  lemma ValueAdds(a: int, b: int, price: real)
    ensures Value(a + b, price) == Value(a, price) + Value(b, price)
  {
  }

  function Min(a: int, b: int): (m: int)
    ensures m <= a && m <= b && (m == a || m == b)
  {
    if a <= b then a else b
  }
}
