/** The parameter optimizer of the backtest: the two fixed parameter grids, their
    Cartesian product, the number of randomised trials, one result row per trial, and
    the choice of the row with the best Sharpe ratio. The random draw and the backtest
    run behind each trial are inputs. */
module Optimizer {
  import opened Trading
  import opened Performance

  /** The number of random trials the optimizer is configured to run. */
  const OptimizationTrials: nat := 24

  /** `itertools.product` of two sequences: every pair, first factor slowest. */
  function Product<A, B>(xs: seq<A>, ys: seq<B>): (r: seq<(A, B)>)
    ensures |r| == |xs| * |ys|
    ensures forall k | 0 <= k < |r| :: r[k].0 in xs && r[k].1 in ys
  {
    if xs == [] then []
    else
      var row := seq(|ys|, j requires 0 <= j < |ys| => (xs[0], ys[j]));
      var rest := Product(xs[1..], ys);
      assert forall k | 0 <= k < |rest| :: rest[k].0 in xs by {
        forall k | 0 <= k < |rest| ensures rest[k].0 in xs {
          assert rest[k].0 in xs[1..];
        }
      }
      row + rest
  }

  /** The pair of the `i`-th first factor and the `j`-th second factor sits at index
      `i * |ys| + j`: the product is in lexicographic order and misses no pair. */
  lemma {:induction false} ProductIndex<A, B>(xs: seq<A>, ys: seq<B>, i: nat, j: nat)
    requires i < |xs| && j < |ys|
    ensures i * |ys| + j < |Product(xs, ys)|
    ensures Product(xs, ys)[i * |ys| + j] == (xs[i], ys[j])
  {
    var rest := Product(xs[1..], ys);
    assert Product(xs, ys) == seq(|ys|, k requires 0 <= k < |ys| => (xs[0], ys[k])) + rest;
    if i > 0 {
      ProductIndex(xs[1..], ys, i - 1, j);
      assert i * |ys| + j == |ys| + ((i - 1) * |ys| + j);
    }
  }

  /** The values searched for each trend-following parameter. */
  datatype TrendAxes = TrendAxes(
    shortWindows: seq<nat>, longWindows: seq<nat>, rsiWindows: seq<nat>,
    thresholds: seq<real>, takeProfits: seq<real>, stopLosses: seq<real>)

  /** The values searched for each mean-reversion parameter. */
  datatype MeanRevAxes = MeanRevAxes(
    windows: seq<nat>, stdDevs: seq<real>, rsiWindows: seq<nat>,
    thresholds: seq<real>, takeProfits: seq<real>, stopLosses: seq<real>)

  const TrendSearch := TrendAxes([20, 40], [50, 100], [14], [55.0], [0.05, 0.07], [0.02, 0.03])

  const MeanRevSearch := MeanRevAxes([20, 30], [2.0, 2.5], [14], [40.0], [0.03, 0.04], [0.015, 0.02])

  /** The trend-following grid: every combination of the axes, in product order. */
  function TrendGrid(a: TrendAxes): (g: seq<Params>)
    ensures |g| == |a.shortWindows| * |a.longWindows| * |a.rsiWindows| * |a.thresholds|
                   * |a.takeProfits| * |a.stopLosses|
    ensures forall k | 0 <= k < |g| ::
              && g[k].TrendParams?
              && g[k].shortWindow in a.shortWindows && g[k].longWindow in a.longWindows
              && g[k].rsiWindow in a.rsiWindows && g[k].rsiBullishThreshold in a.thresholds
              && g[k].takeProfitPct in a.takeProfits && g[k].stopLossPct in a.stopLosses
  {
    var p := Product(Product(Product(Product(Product(a.shortWindows, a.longWindows), a.rsiWindows),
                                     a.thresholds), a.takeProfits), a.stopLosses);
    seq(|p|, k requires 0 <= k < |p| =>
      TrendParams(p[k].0.0.0.0.0, p[k].0.0.0.0.1, p[k].0.0.0.1, p[k].0.0.1, p[k].0.1, p[k].1))
  }

  /** The mean-reversion grid: every combination of the axes, in product order. */
  function MeanRevGrid(a: MeanRevAxes): (g: seq<Params>)
    ensures |g| == |a.windows| * |a.stdDevs| * |a.rsiWindows| * |a.thresholds|
                   * |a.takeProfits| * |a.stopLosses|
    ensures forall k | 0 <= k < |g| ::
              && g[k].MeanRevParams?
              && g[k].window in a.windows && g[k].stdDevs in a.stdDevs
              && g[k].rsiWindow in a.rsiWindows && g[k].rsiOversoldThreshold in a.thresholds
              && g[k].takeProfitPct in a.takeProfits && g[k].stopLossPct in a.stopLosses
  {
    var p := Product(Product(Product(Product(Product(a.windows, a.stdDevs), a.rsiWindows),
                                     a.thresholds), a.takeProfits), a.stopLosses);
    seq(|p|, k requires 0 <= k < |p| =>
      MeanRevParams(p[k].0.0.0.0.0, p[k].0.0.0.0.1, p[k].0.0.0.1, p[k].0.0.1, p[k].0.1, p[k].1))
  }

  /** The index of digit `j` appended to index `i` in base `n`: where the pair `(i, j)`
      sits in a product whose second factor has `n` elements. */
  function Mix(i: nat, n: nat, j: nat): nat {
    i * n + j
  }

  /** `ProductIndex` with the index written as `Mix`. */
  lemma ProductAt<A, B>(xs: seq<A>, ys: seq<B>, i: nat, j: nat)
    requires i < |xs| && j < |ys|
    ensures Mix(i, |ys|, j) < |Product(xs, ys)| && Product(xs, ys)[Mix(i, |ys|, j)] == (xs[i], ys[j])
  {
    ProductIndex(xs, ys, i, j);
  }

  /** Four nested products in a row: the tuple of the `i1`-th to `i4`-th elements sits at
      their mixed-radix index. */
  lemma Product4At<A, B, C, D>(w: seq<A>, x: seq<B>, y: seq<C>, z: seq<D>, i1: nat, i2: nat, i3: nat, i4: nat)
    requires i1 < |w| && i2 < |x| && i3 < |y| && i4 < |z|
    ensures var k := Mix(Mix(Mix(i1, |x|, i2), |y|, i3), |z|, i4);
            && k < |Product(Product(Product(w, x), y), z)|
            && Product(Product(Product(w, x), y), z)[k] == (((w[i1], x[i2]), y[i3]), z[i4])
  {
    var p1 := Product(w, x);
    var p2 := Product(p1, y);
    var k1 := Mix(i1, |x|, i2);
    var k2 := Mix(k1, |y|, i3);
    ProductAt(w, x, i1, i2);
    ProductAt(p1, y, k1, i3);
    ProductAt(p2, z, k2, i4);
  }

  /** Entry `k` of the grid is built from entry `k` of the product of its axes. */
  lemma TrendGridAt(a: TrendAxes, k: nat)
    requires k < |Product(Product(Product(Product(Product(a.shortWindows, a.longWindows), a.rsiWindows), a.thresholds), a.takeProfits), a.stopLosses)|
    ensures var p := Product(Product(Product(Product(Product(a.shortWindows, a.longWindows), a.rsiWindows), a.thresholds), a.takeProfits), a.stopLosses);
            && k < |TrendGrid(a)|
            && TrendGrid(a)[k] == TrendParams(p[k].0.0.0.0.0, p[k].0.0.0.0.1, p[k].0.0.0.1, p[k].0.0.1, p[k].0.1, p[k].1)
  {
  }

  /** The trend grid misses no combination: the configuration built from the `i1`-th to
      `i6`-th value of the axes sits at its mixed-radix index, first axis slowest. */
  lemma TrendGridCovers(a: TrendAxes, i1: nat, i2: nat, i3: nat, i4: nat, i5: nat, i6: nat)
    requires i1 < |a.shortWindows| && i2 < |a.longWindows| && i3 < |a.rsiWindows|
    requires i4 < |a.thresholds| && i5 < |a.takeProfits| && i6 < |a.stopLosses|
    ensures var k := Mix(Mix(Mix(Mix(Mix(i1, |a.longWindows|, i2), |a.rsiWindows|, i3), |a.thresholds|, i4),
                                 |a.takeProfits|, i5), |a.stopLosses|, i6);
            && k < |TrendGrid(a)|
            && TrendGrid(a)[k] == TrendParams(a.shortWindows[i1], a.longWindows[i2], a.rsiWindows[i3],
                                              a.thresholds[i4], a.takeProfits[i5], a.stopLosses[i6])
  {
    var p4 := Product(Product(Product(Product(a.shortWindows, a.longWindows), a.rsiWindows), a.thresholds), a.takeProfits);
    var p5 := Product(p4, a.stopLosses);
    var k4 := Mix(Mix(Mix(Mix(i1, |a.longWindows|, i2), |a.rsiWindows|, i3), |a.thresholds|, i4), |a.takeProfits|, i5);
    var k := Mix(k4, |a.stopLosses|, i6);
    ProductAt(a.shortWindows, a.longWindows, i1, i2);
    Product4At(Product(a.shortWindows, a.longWindows), a.rsiWindows, a.thresholds, a.takeProfits, Mix(i1, |a.longWindows|, i2), i3, i4, i5);
    ProductAt(p4, a.stopLosses, k4, i6);
    TrendGridAt(a, k);
    assert p5[k] == (((((a.shortWindows[i1], a.longWindows[i2]), a.rsiWindows[i3]), a.thresholds[i4]), a.takeProfits[i5]), a.stopLosses[i6]);
  }

  /** Entry `k` of the grid is built from entry `k` of the product of its axes. */
  lemma MeanRevGridAt(a: MeanRevAxes, k: nat)
    requires k < |Product(Product(Product(Product(Product(a.windows, a.stdDevs), a.rsiWindows), a.thresholds), a.takeProfits), a.stopLosses)|
    ensures var p := Product(Product(Product(Product(Product(a.windows, a.stdDevs), a.rsiWindows), a.thresholds), a.takeProfits), a.stopLosses);
            && k < |MeanRevGrid(a)|
            && MeanRevGrid(a)[k] == MeanRevParams(p[k].0.0.0.0.0, p[k].0.0.0.0.1, p[k].0.0.0.1, p[k].0.0.1, p[k].0.1, p[k].1)
  {
  }

  /** The mean-reversion grid misses no combination, in the same order. */
  lemma MeanRevGridCovers(a: MeanRevAxes, i1: nat, i2: nat, i3: nat, i4: nat, i5: nat, i6: nat)
    requires i1 < |a.windows| && i2 < |a.stdDevs| && i3 < |a.rsiWindows|
    requires i4 < |a.thresholds| && i5 < |a.takeProfits| && i6 < |a.stopLosses|
    ensures var k := Mix(Mix(Mix(Mix(Mix(i1, |a.stdDevs|, i2), |a.rsiWindows|, i3), |a.thresholds|, i4),
                                 |a.takeProfits|, i5), |a.stopLosses|, i6);
            && k < |MeanRevGrid(a)|
            && MeanRevGrid(a)[k] == MeanRevParams(a.windows[i1], a.stdDevs[i2], a.rsiWindows[i3],
                                                  a.thresholds[i4], a.takeProfits[i5], a.stopLosses[i6])
  {
    var p4 := Product(Product(Product(Product(a.windows, a.stdDevs), a.rsiWindows), a.thresholds), a.takeProfits);
    var p5 := Product(p4, a.stopLosses);
    var k4 := Mix(Mix(Mix(Mix(i1, |a.stdDevs|, i2), |a.rsiWindows|, i3), |a.thresholds|, i4), |a.takeProfits|, i5);
    var k := Mix(k4, |a.stopLosses|, i6);
    ProductAt(a.windows, a.stdDevs, i1, i2);
    Product4At(Product(a.windows, a.stdDevs), a.rsiWindows, a.thresholds, a.takeProfits, Mix(i1, |a.stdDevs|, i2), i3, i4, i5);
    ProductAt(p4, a.stopLosses, k4, i6);
    MeanRevGridAt(a, k);
    assert p5[k] == (((((a.windows[i1], a.stdDevs[i2]), a.rsiWindows[i3]), a.thresholds[i4]), a.takeProfits[i5]), a.stopLosses[i6]);
  }

  /** Every pairing of a trend configuration with a mean-reversion configuration. */
  function AllCombos(t: TrendAxes, m: MeanRevAxes): (c: seq<(Params, Params)>)
    ensures |c| == |TrendGrid(t)| * |MeanRevGrid(m)|
    ensures forall k | 0 <= k < |c| :: c[k].0 in TrendGrid(t) && c[k].1 in MeanRevGrid(m)
  {
    Product(TrendGrid(t), MeanRevGrid(m))
  }

  /** `min(OPTIMIZATION_TRIALS, len(all_combos))`. */
  function NumTrials(t: TrendAxes, m: MeanRevAxes): nat {
    Min(OptimizationTrials, |AllCombos(t, m)|)
  }

  /** The configured grids hold 16 configurations each, 256 pairs in all, more than the
      trial budget: exactly the configured number of trials runs. */
  lemma TrialCount()
    ensures |TrendGrid(TrendSearch)| == 16 && |MeanRevGrid(MeanRevSearch)| == 16
    ensures |AllCombos(TrendSearch, MeanRevSearch)| == 256
    ensures NumTrials(TrendSearch, MeanRevSearch) == OptimizationTrials == 24
  {
    var t, m := TrendSearch, MeanRevSearch;
    assert |t.shortWindows| == 2 && |t.longWindows| == 2 && |t.rsiWindows| == 1;
    assert |t.thresholds| == 1 && |t.takeProfits| == 2 && |t.stopLosses| == 2;
    assert |m.windows| == 2 && |m.stdDevs| == 2 && |m.rsiWindows| == 1;
    assert |m.thresholds| == 1 && |m.takeProfits| == 2 && |m.stopLosses| == 2;
  }

  /** What `random.sample` guarantees: `k` distinct indices into a population of `n`. */
  predicate IsSample(picks: seq<nat>, n: nat, k: nat) {
    && |picks| == k
    && (forall i | 0 <= i < |picks| :: picks[i] < n)
    && (forall i, j | 0 <= i < j < |picks| :: picks[i] != picks[j])
  }

  /** The outcome of one backtest: its equity curve and its performance metrics. */
  datatype Evaluation = Evaluation(curve: seq<real>, metrics: Metrics)

  /** A full backtest of one parameter pair (simulation plus metrics). */
  type Backtester = (Params, Params) -> Evaluation

  datatype Row = Row(trend: Params, meanRev: Params, finalEquity: real, metrics: Metrics)

  /** The last point of the equity curve, or 0 for an empty curve. */
  function FinalEquity(curve: seq<real>): (e: real)
    ensures curve == [] ==> e == 0.0
    ensures curve != [] ==> e == curve[|curve| - 1]
  {
    if curve == [] then 0.0 else curve[|curve| - 1]
  }

  function MakeRow(combo: (Params, Params), evaluate: Backtester): Row {
    var ev := evaluate(combo.0, combo.1);
    Row(combo.0, combo.1, FinalEquity(ev.curve), ev.metrics)
  }

  /** `ParameterOptimizer.run`: one result row per sampled combination, in the order
      drawn, each carrying the parameters it ran with. */
  function RunOptimizer(t: TrendAxes, m: MeanRevAxes, picks: seq<nat>, evaluate: Backtester)
    : (rows: seq<Row>)
    requires IsSample(picks, |AllCombos(t, m)|, NumTrials(t, m))
    ensures |rows| == |picks| == NumTrials(t, m)
    ensures forall i | 0 <= i < |rows| ::
              && (rows[i].trend, rows[i].meanRev) == AllCombos(t, m)[picks[i]]
              && rows[i].trend in TrendGrid(t) && rows[i].meanRev in MeanRevGrid(m)
              && rows[i].metrics == evaluate(rows[i].trend, rows[i].meanRev).metrics
              && rows[i].finalEquity == FinalEquity(evaluate(rows[i].trend, rows[i].meanRev).curve)
  {
    var combos := AllCombos(t, m);
    seq(|picks|, i requires 0 <= i < |picks| => MakeRow(combos[picks[i]], evaluate))
  }

  /** `ReportGenerator.get_best_params`: nothing for an empty table, otherwise the first
      row whose Sharpe ratio is maximal. */
  method GetBestParams(rows: seq<Row>) returns (best: Option<Row>)
    ensures best.None? <==> rows == []
    ensures best.Some? ==>
              exists i | 0 <= i < |rows| ::
                && best.value == rows[i]
                && (forall j | 0 <= j < |rows| :: rows[j].metrics.sharpe <= rows[i].metrics.sharpe)
                && (forall j | 0 <= j < i :: rows[j].metrics.sharpe < rows[i].metrics.sharpe)
  {
    if rows == [] {
      return None;
    }
    var bi := 0;
    var k := 1;
    while k < |rows|
      invariant 1 <= k <= |rows| && bi < k
      invariant forall j | 0 <= j < k :: rows[j].metrics.sharpe <= rows[bi].metrics.sharpe
      invariant forall j | 0 <= j < bi :: rows[j].metrics.sharpe < rows[bi].metrics.sharpe
    {
      if rows[k].metrics.sharpe > rows[bi].metrics.sharpe {
        bi := k;
      }
      k := k + 1;
    }
    best := Some(rows[bi]);
  }
}
