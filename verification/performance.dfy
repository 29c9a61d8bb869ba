/** Performance metrics of a backtest equity curve: the guard for short return series,
    the annualised mean, the Sharpe / Sortino / Calmar ratios with their zero fall-backs,
    and the maximum drawdown of the compounded returns against their running peak.
    Standard deviations (with the square-root annualisation) are abstract inputs. */
module Performance {
  import opened Trading

  const TradingDays: real := 252.0

  datatype Metrics = Metrics(sharpe: real, sortino: real, calmar: real, maxDrawdown: real)

  const ZeroMetrics := Metrics(0.0, 0.0, 0.0, 0.0)

  /** Every simple return stays above -100%, so compounded equity stays positive. */
  predicate AboveTotalLoss(r: seq<real>) {
    forall j | 0 <= j < |r| :: r[j] > -1.0
  }

  /** `pct_change().dropna()`: the simple return from each point of the curve to the next. */
  function PctChange(curve: seq<real>): (r: seq<real>)
    requires forall j | 0 <= j < |curve| :: curve[j] > 0.0
    ensures |curve| >= 1 ==> |r| == |curve| - 1
    ensures |curve| == 0 ==> r == []
    ensures forall j | 0 <= j < |r| :: r[j] == SimpleReturn(curve[j], curve[j + 1])
  {
    if |curve| == 0 then []
    else seq(|curve| - 1, j requires 0 <= j < |curve| - 1 => SimpleReturn(curve[j], curve[j + 1]))
  }

  /** The simple return from one positive value to the next. */
  function SimpleReturn(from: real, to: real): real
    requires from > 0.0
  {
    to / from - 1.0
  }

  function Sum(r: seq<real>): real {
    if r == [] then 0.0 else Sum(r[..|r| - 1]) + r[|r| - 1]
  }

  function Mean(r: seq<real>): real
    requires r != []
  {
    Sum(r) / |r| as real
  }

  /** The compounded growth of one unit over the first `n` returns: `(1 + r).cumprod()`. */
  function Growth(r: seq<real>, n: nat): real
    requires n <= |r|
  {
    if n == 0 then 1.0 else Compound(Growth(r, n - 1), r[n - 1])
  }

  /** One compounding step: a value grown by the simple return `x`. */
  function Compound(value: real, x: real): real {
    value * (1.0 + x)
  }

  lemma CompoundPositive(value: real, x: real)
    requires 0.0 < value && -1.0 < x
    ensures 0.0 < Compound(value, x)
  {
    MulPositive(value, 1.0 + x);
  }

  /** Compounded equity stays positive while every return is above -100%. */
  lemma {:induction false} GrowthPositive(r: seq<real>, n: nat)
    requires AboveTotalLoss(r) && n <= |r|
    ensures Growth(r, n) > 0.0
  {
    if n > 0 {
      GrowthPositive(r, n - 1);
      CompoundPositive(Growth(r, n - 1), r[n - 1]);
    }
  }

  /** The running peak of the compounded curve up to point `n` (points are 1-based). */
  function Peak(r: seq<real>, n: nat): (p: real)
    requires 1 <= n <= |r|
    ensures Growth(r, n) <= p
  {
    if n == 1 then Growth(r, 1)
    else
      var prev := Peak(r, n - 1);
      if Growth(r, n) > prev then Growth(r, n) else prev
  }

  /** The peak is the running maximum: at least every earlier point, and one of them. */
  lemma {:induction false} PeakIsRunningMax(r: seq<real>, n: nat)
    requires 1 <= n <= |r|
    ensures forall k | 1 <= k <= n :: Growth(r, k) <= Peak(r, n)
    ensures exists k | 1 <= k <= n :: Growth(r, k) == Peak(r, n)
  {
    if n == 1 {
      assert Growth(r, 1) == Peak(r, 1);
    } else {
      PeakIsRunningMax(r, n - 1);
      if Growth(r, n) <= Peak(r, n - 1) {
        var k :| 1 <= k <= n - 1 && Growth(r, k) == Peak(r, n - 1);
        assert Growth(r, k) == Peak(r, n);
      } else {
        assert Growth(r, n) == Peak(r, n);
      }
    }
  }

  /** Drawdown at point `n`: the relative distance of the curve below its running peak. */
  function Drawdown(r: seq<real>, n: nat): real
    requires AboveTotalLoss(r) && 1 <= n <= |r|
  {
    GrowthPositive(r, n);
    Below(Growth(r, n), Peak(r, n))
  }

  /** How far `value` lies below `peak`, relative to the peak. */
  function Below(value: real, peak: real): real
    requires peak > 0.0
  {
    (value - peak) / peak
  }

  /** A drawdown is never positive and never reaches -100% while equity stays positive. */
  lemma DrawdownBounds(r: seq<real>, n: nat)
    requires AboveTotalLoss(r) && 1 <= n <= |r|
    ensures -1.0 < Drawdown(r, n) <= 0.0
  {
    GrowthPositive(r, n);
    RatioBounds(Growth(r, n), Peak(r, n));
  }

  lemma RatioBounds(g: real, p: real)
    requires 0.0 < g <= p
    ensures -1.0 < Below(g, p) <= 0.0
  {
    var d := (g - p) / p;
    assert d * p == g - p;
    FactorSign(d, p);
    assert (d + 1.0) * p == g;
    FactorSign(d + 1.0, p);
  }

  /** The sign of a product with a positive factor is the sign of the other factor. */
  lemma FactorSign(a: real, p: real)
    requires 0.0 < p
    ensures a * p > 0.0 ==> a > 0.0
    ensures a * p <= 0.0 ==> a <= 0.0
  {
    if a > 0.0 {
      MulPositive(a, p);
    }
    if a <= 0.0 && a * p > 0.0 {
      MulPositive(-a + p, p);
    }
  }

  /** The deepest drawdown over the first `n` points: `drawdown.min()`. */
  function MinDrawdown(r: seq<real>, n: nat): real
    requires AboveTotalLoss(r) && 1 <= n <= |r|
  {
    if n == 1 then Drawdown(r, 1)
    else
      var prev := MinDrawdown(r, n - 1);
      if Drawdown(r, n) < prev then Drawdown(r, n) else prev
  }

  /** The maximum drawdown is the deepest of the drawdowns, hence within (-100%, 0]. */
  lemma {:induction false} MinDrawdownIsDeepest(r: seq<real>, n: nat)
    requires AboveTotalLoss(r) && 1 <= n <= |r|
    ensures forall k | 1 <= k <= n :: MinDrawdown(r, n) <= Drawdown(r, k)
    ensures exists k | 1 <= k <= n :: MinDrawdown(r, n) == Drawdown(r, k)
    ensures -1.0 < MinDrawdown(r, n) <= 0.0
  {
    DrawdownBounds(r, n);
    if n > 1 {
      MinDrawdownIsDeepest(r, n - 1);
    }
  }

  /** The maximum drawdown in one pass, carrying the compounded value, its running peak
      and the deepest drawdown seen so far. */
  method MaxDrawdown(r: seq<real>) returns (mdd: real)
    requires AboveTotalLoss(r) && r != []
    ensures mdd == MinDrawdown(r, |r|)
    ensures -1.0 < mdd <= 0.0
  {
    var cum := Compound(1.0, r[0]);
    var peak := cum;
    GrowthPositive(r, 1);
    mdd := Below(cum, peak);
    var i := 1;
    while i < |r|
      invariant 1 <= i <= |r|
      invariant cum == Growth(r, i) && peak == Peak(r, i)
      invariant mdd == MinDrawdown(r, i)
    {
      cum := Compound(cum, r[i]);
      if cum > peak {
        peak := cum;
      }
      GrowthPositive(r, i + 1);
      var dd := Below(cum, peak);
      if dd < mdd {
        mdd := dd;
      }
      i := i + 1;
    }
    MinDrawdownIsDeepest(r, |r|);
  }

  /** Sharpe-style ratio with the source's fall-back: zero unless the denominator is
      positive. */
  function Ratio(excess: real, denominator: real): (q: real)
    ensures denominator <= 0.0 ==> q == 0.0
    ensures denominator > 0.0 ==> q * denominator == excess
  {
    if denominator > 0.0 then excess / denominator else 0.0
  }

  predicate HasLoss(r: seq<real>) {
    exists j | 0 <= j < |r| :: r[j] < 0.0
  }

  /** `calculate_metrics`. `annualVol` is the annualised standard deviation of the
      returns and `annualDownside` that of the negative returns (used only when there
      is one); both come from floating-point statistics outside this model. */
  method CalculateMetrics(r: seq<real>, riskFree: real, annualVol: real, annualDownside: real)
    returns (m: Metrics)
    requires AboveTotalLoss(r)
    ensures |r| < 2 ==> m == ZeroMetrics
    ensures |r| >= 2 ==>
              && m.sharpe == Ratio(Mean(r) * TradingDays - riskFree, annualVol)
              && m.sortino == Ratio(Mean(r) * TradingDays - riskFree, if HasLoss(r) then annualDownside else 0.0)
              && m.maxDrawdown == MinDrawdown(r, |r|)
    ensures -1.0 < m.maxDrawdown <= 0.0
    ensures m.maxDrawdown == 0.0 ==> m.calmar == 0.0
    ensures m.maxDrawdown < 0.0 ==> m.calmar * -m.maxDrawdown == Mean(r) * TradingDays
  {
    if |r| < 2 {
      return ZeroMetrics;
    }
    var annualReturn := Mean(r) * TradingDays;
    var sharpe := Ratio(annualReturn - riskFree, annualVol);
    var downside := if HasLoss(r) then annualDownside else 0.0;
    var sortino := Ratio(annualReturn - riskFree, downside);
    var mdd := MaxDrawdown(r);
    var calmar := Ratio(annualReturn, -mdd);
    m := Metrics(sharpe, sortino, calmar, mdd);
  }

  /** Compounding the simple returns of a positive curve rebuilds the curve relative
      to its first point. */
  lemma {:induction false} GrowthOfPctChange(curve: seq<real>, n: nat)
    requires forall j | 0 <= j < |curve| :: curve[j] > 0.0
    requires n < |curve|
    ensures Growth(PctChange(curve), n) == curve[n] / curve[0]
  {
    var r := PctChange(curve);
    if n == 0 {
      assert Growth(r, 0) == 1.0;
      DivUnique(1.0, curve[0], curve[0]);
    } else {
      GrowthOfPctChange(curve, n - 1);
      assert r[n - 1] == SimpleReturn(curve[n - 1], curve[n]);
      Telescope(curve[0], curve[n - 1], curve[n]);
    }
  }

  lemma Telescope(a: real, b: real, c: real)
    requires a > 0.0 && b > 0.0
    ensures Compound(b / a, SimpleReturn(b, c)) == c / a
  {
    var x := b / a;
    var y := c / b;
    assert x * a == b && y * b == c;
    assert (x * y) * a == c;
    DivUnique(x * y, c, a);
  }

  lemma DivUnique(z: real, c: real, a: real)
    requires a != 0.0 && z * a == c
    ensures z == c / a
  {
  }

  /** A positive curve has returns above -100%. */
  lemma PctChangeAboveTotalLoss(curve: seq<real>)
    requires forall j | 0 <= j < |curve| :: curve[j] > 0.0
    ensures AboveTotalLoss(PctChange(curve))
  {
    var r := PctChange(curve);
    forall j | 0 <= j < |r| ensures r[j] > -1.0 {
      assert r[j] == SimpleReturn(curve[j], curve[j + 1]);
      DivPositive(curve[j + 1], curve[j]);
    }
  }

  lemma DivPositive(a: real, b: real)
    requires 0.0 < a && 0.0 < b
    ensures 0.0 < a / b
  {
  }
}
