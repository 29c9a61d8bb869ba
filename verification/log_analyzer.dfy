/** Realized profit of the live trade log, by the average-cost method: buys are pooled
    per symbol across every strategy; a sell closes part of the pool at the pool's
    average cost and books the difference to its sale price. Then the summary
    statistics of the closed trades: total, win rate, average win and loss, and the
    per-strategy totals. */
module LogAnalyzer {
  import opened Trading
  import RoundTrips
  import Backtest

  /** One execution line of the live trade log, as parsed (quantities are digit runs). */
  datatype Trade = Trade(strategy: StrategyId, side: Side, qty: nat, symbol: Symbol, price: real)

  /** The open position of one symbol, pooled over all strategies: the quantity held and
      the total cost still carried for it. */
  datatype Pool = Pool(qty: int, cost: real)

  /** One closing sell: who sold, what, the realized profit and the quantity closed. */
  datatype Closed = Closed(strategy: StrategyId, symbol: Symbol, pnl: real, qtyClosed: int)

  type Pools = map<Symbol, Pool>

  datatype Realized = Realized(pools: Pools, closed: seq<Closed>)

  /** The pool of a symbol; a symbol never bought has an empty one. */
  function PoolOf(pools: Pools, sym: Symbol): Pool {
    if sym in pools then pools[sym] else Pool(0, 0.0)
  }

  function AverageCost(p: Pool): real
    requires p.qty > 0
  {
    p.cost / p.qty as real
  }

  /** A pool holds a non-negative quantity and carries no cost once empty. */
  predicate WellFormed(p: Pool) {
    0 <= p.qty && (p.qty == 0 ==> p.cost == 0.0)
  }

  /** The profit of closing `qty` units bought at `avg` by selling them at `price`. */
  function Gain(price: real, avg: real, qty: int): real {
    (price - avg) * qty as real
  }

  /** A buy adds its quantity and its value to the symbol's pool. */
  function AddToPool(p: Pool, qty: nat, price: real): (r: Pool)
    ensures r.qty == p.qty + qty && r.cost == p.cost + Value(qty, price)
    ensures WellFormed(p) && 0.0 <= price ==> WellFormed(r)
  {
    if WellFormed(p) && 0.0 <= price && p.qty + qty == 0 then
      assert Value(qty, price) == 0.0;
      Pool(p.qty + qty, p.cost + Value(qty, price))
    else Pool(p.qty + qty, p.cost + Value(qty, price))
  }

  /** A sell against a non-empty pool closes `min(sell quantity, pool quantity)` units at
      the average cost. The rest of the pool keeps its average cost, an emptied pool
      carries no cost, and the profit is the proceeds less the cost released. */
  function CloseFromPool(p: Pool, qty: nat, price: real): (r: (Pool, real, int))
    requires p.qty > 0
    ensures r.2 == Min(qty, p.qty) && r.0.qty == p.qty - r.2 && 0 <= r.0.qty
    ensures r.0.qty > 0 ==> AverageCost(r.0) == AverageCost(p)
    ensures r.0.qty == 0 ==> r.0.cost == 0.0
    ensures r.1 == Value(r.2, price) - (p.cost - r.0.cost)
  {
    var avg := AverageCost(p);
    var closed := Min(qty, p.qty);
    var rest := Pool(p.qty - closed, p.cost - Value(closed, avg));
    ReleaseAtAverage(p.cost, p.qty, closed);
    GainIsProceedsLessCost(price, avg, closed);
    (rest, Gain(price, avg, closed), closed)
  }

  /** Releasing `closed` of `qty` units at the average cost leaves the remainder at the
      same average, and nothing when all are released. */
  lemma ReleaseAtAverage(cost: real, qty: int, closed: int)
    requires 0 <= closed <= qty && 0 < qty
    ensures closed == qty ==> cost - Value(closed, cost / qty as real) == 0.0
    ensures closed < qty ==>
              (cost - Value(closed, cost / qty as real)) / (qty - closed) as real == cost / qty as real
  {
    var avg := cost / qty as real;
    assert avg * qty as real == cost;
    assert cost - Value(closed, avg) == avg * (qty - closed) as real;
  }

  lemma GainIsProceedsLessCost(price: real, avg: real, qty: int)
    ensures Gain(price, avg, qty) == Value(qty, price) - Value(qty, avg)
  {
  }

  /** One trade of the log. Other symbols' pools never change; a sell against an empty
      pool is ignored; a sell against a non-empty pool appends one closed trade. */
  function Step(a: Realized, t: Trade): (r: Realized)
    ensures forall sym | sym != t.symbol :: PoolOf(r.pools, sym) == PoolOf(a.pools, sym)
    ensures t.side == Buy ==> r.closed == a.closed && PoolOf(r.pools, t.symbol) == AddToPool(PoolOf(a.pools, t.symbol), t.qty, t.price)
    ensures t.side == Sell && PoolOf(a.pools, t.symbol).qty <= 0 ==> r == a
    ensures t.side == Sell && PoolOf(a.pools, t.symbol).qty > 0 ==>
              var s := CloseFromPool(PoolOf(a.pools, t.symbol), t.qty, t.price);
              && PoolOf(r.pools, t.symbol) == s.0
              && r.closed == a.closed + [Closed(t.strategy, t.symbol, s.1, s.2)]
  {
    var p := PoolOf(a.pools, t.symbol);
    match t.side
    case Buy => Realized(a.pools[t.symbol := AddToPool(p, t.qty, t.price)], a.closed)
    case Sell =>
      if p.qty > 0 then
        var s := CloseFromPool(p, t.qty, t.price);
        Realized(a.pools[t.symbol := s.0], a.closed + [Closed(t.strategy, t.symbol, s.1, s.2)])
      else a
  }

  /** The pools and the closed trades after the whole log, in log order. */
  function Replay(trades: seq<Trade>): Realized {
    if trades == [] then Realized(map[], [])
    else Step(Replay(trades[..|trades| - 1]), trades[|trades| - 1])
  }

  /** `calculate_realized_pnl`: the closed trades, one per sell that met an open pool. */
  method CalculateRealizedPnl(trades: seq<Trade>) returns (closed: seq<Closed>)
    ensures closed == Replay(trades).closed
    ensures |closed| <= SellCount(trades)
  {
    var a := Realized(map[], []);
    var i := 0;
    while i < |trades|
      invariant 0 <= i <= |trades|
      invariant a == Replay(trades[..i])
      invariant |a.closed| <= SellCount(trades[..i])
    {
      assert trades[..i + 1][..i] == trades[..i];
      a := Step(a, trades[i]);
      i := i + 1;
    }
    assert trades[..i] == trades;
    closed := a.closed;
  }

  function SellCount(trades: seq<Trade>): nat {
    if trades == [] then 0
    else SellCount(trades[..|trades| - 1]) + (if trades[|trades| - 1].side == Sell then 1 else 0)
  }

  /** Units of `sym` bought over the log. */
  function Bought(trades: seq<Trade>, sym: Symbol): int {
    if trades == [] then 0
    else
      var t := trades[|trades| - 1];
      Bought(trades[..|trades| - 1], sym) + (if t.symbol == sym && t.side == Buy then t.qty else 0)
  }

  /** Units of `sym` closed by the closed trades. */
  function ClosedQty(closed: seq<Closed>, sym: Symbol): int {
    if closed == [] then 0
    else
      var c := closed[|closed| - 1];
      ClosedQty(closed[..|closed| - 1], sym) + (if c.symbol == sym then c.qtyClosed else 0)
  }

  lemma ClosedQtyAppend(closed: seq<Closed>, c: Closed, sym: Symbol)
    ensures ClosedQty(closed + [c], sym) == ClosedQty(closed, sym) + (if c.symbol == sym then c.qtyClosed else 0)
  {
    assert (closed + [c])[..|closed|] == closed;
  }

  /** Over the whole log, every symbol's pool is well formed, and the units still open
      plus the units closed are the units bought: nothing is closed that was not
      bought. */
  lemma {:induction false} ReplayConservesUnits(trades: seq<Trade>, sym: Symbol)
    requires forall k | 0 <= k < |trades| :: 0.0 <= trades[k].price
    ensures WellFormed(PoolOf(Replay(trades).pools, sym))
    ensures PoolOf(Replay(trades).pools, sym).qty + ClosedQty(Replay(trades).closed, sym) == Bought(trades, sym)
    ensures 0 <= ClosedQty(Replay(trades).closed, sym) <= Bought(trades, sym)
  {
    if trades != [] {
      var prefix := trades[..|trades| - 1];
      var t := trades[|trades| - 1];
      var a := Replay(prefix);
      ReplayConservesUnits(prefix, sym);
      var p := PoolOf(a.pools, t.symbol);
      if t.side == Sell && p.qty > 0 {
        var s := CloseFromPool(p, t.qty, t.price);
        ClosedQtyAppend(a.closed, Closed(t.strategy, t.symbol, s.1, s.2), sym);
        if t.symbol != sym {
          assert PoolOf(Replay(trades).pools, sym) == PoolOf(a.pools, sym);
        }
      }
    }
  }

  // ---------------------------------------------------------------------------
  // Summary statistics
  // ---------------------------------------------------------------------------

  /** The report, or the "no performance data" answer for an empty table. */
  datatype Summary =
    | NoData
    | Summary(totalPnl: real, totalTrades: nat, wins: nat, losses: nat,
              winRate: real, avgWin: real, avgLoss: real)

  function Pnls(closed: seq<Closed>): (r: seq<real>)
    ensures |r| == |closed| && forall k | 0 <= k < |r| :: r[k] == closed[k].pnl
  {
    seq(|closed|, k requires 0 <= k < |closed| => closed[k].pnl)
  }

  function Sum(xs: seq<real>): real {
    if xs == [] then 0.0 else xs[0] + Sum(xs[1..])
  }

  /** The profits above zero, in order: every positive profit, as often as it occurs,
      and nothing else. */
  function Winners(xs: seq<real>): (w: seq<real>)
    ensures |w| <= |xs| && forall k | 0 <= k < |w| :: w[k] > 0.0
    ensures forall x :: multiset(w)[x] == if x > 0.0 then multiset(xs)[x] else 0
  {
    if xs == [] then []
    else
      assert xs == [xs[0]] + xs[1..];
      (if xs[0] > 0.0 then [xs[0]] else []) + Winners(xs[1..])
  }

  /** The profits at or below zero, in order: every such profit, as often as it occurs,
      and nothing else. */
  function Losers(xs: seq<real>): (l: seq<real>)
    ensures |l| <= |xs| && forall k | 0 <= k < |l| :: l[k] <= 0.0
    ensures forall x :: multiset(l)[x] == if x <= 0.0 then multiset(xs)[x] else 0
  {
    if xs == [] then []
    else
      assert xs == [xs[0]] + xs[1..];
      (if xs[0] <= 0.0 then [xs[0]] else []) + Losers(xs[1..])
  }

  /** Every trade is a win or a loss and not both, so the two groups add up to the
      whole in count and in profit. */
  lemma {:induction false} WinnersLosersPartition(xs: seq<real>)
    ensures |Winners(xs)| + |Losers(xs)| == |xs|
    ensures Sum(Winners(xs)) + Sum(Losers(xs)) == Sum(xs)
  {
    if xs != [] {
      WinnersLosersPartition(xs[1..]);
      if xs[0] > 0.0 {
        SumCons(xs[0], Winners(xs[1..]));
        assert Losers(xs) == Losers(xs[1..]);
      } else {
        SumCons(xs[0], Losers(xs[1..]));
        assert Winners(xs) == Winners(xs[1..]);
      }
    }
  }

  lemma SumCons(x: real, xs: seq<real>)
    ensures Sum([x] + xs) == x + Sum(xs)
  {
    assert ([x] + xs)[1..] == xs;
  }

  lemma {:induction false} SumPositive(xs: seq<real>)
    requires xs != [] && forall k | 0 <= k < |xs| :: xs[k] > 0.0
    ensures Sum(xs) > 0.0
  {
    if |xs| > 1 {
      SumPositive(xs[1..]);
    }
  }

  lemma {:induction false} SumNonPositive(xs: seq<real>)
    requires forall k | 0 <= k < |xs| :: xs[k] <= 0.0
    ensures Sum(xs) <= 0.0
  {
    if xs != [] {
      SumNonPositive(xs[1..]);
    }
  }

  /** Winning trades add up to a profit and losing trades to a loss or nothing. */
  lemma GroupSigns(xs: seq<real>)
    ensures Winners(xs) != [] ==> Sum(Winners(xs)) > 0.0
    ensures Sum(Losers(xs)) <= 0.0
  {
    if Winners(xs) != [] {
      SumPositive(Winners(xs));
    }
    SumNonPositive(Losers(xs));
  }

  lemma MeanSign(xs: seq<real>)
    ensures xs != [] && Sum(xs) > 0.0 ==> MeanOrZero(xs) > 0.0
    ensures Sum(xs) <= 0.0 ==> MeanOrZero(xs) <= 0.0
  {
    if xs != [] {
      var n := |xs| as real;
      assert MeanOrZero(xs) * n == Sum(xs);
    }
  }

  /** `mean()` of a group, or 0 for an empty group. */
  function MeanOrZero(xs: seq<real>): real {
    if xs == [] then 0.0 else Sum(xs) / |xs| as real
  }

  /** The statistics of `analyze_performance`: the total, the win rate as a percentage,
      and the mean winning and losing profits. */
  function AnalyzePerformance(closed: seq<Closed>): (s: Summary)
    ensures s.NoData? <==> closed == []
    ensures s.Summary? ==>
              && s.totalTrades == |closed| && s.wins + s.losses == s.totalTrades
              && s.totalPnl == Sum(Pnls(closed))
              && 0.0 <= s.winRate <= 100.0
              && s.winRate == WinRate(s.wins, s.totalTrades)
              && (s.wins > 0 ==> s.avgWin > 0.0) && (s.wins == 0 ==> s.avgWin == 0.0)
              && s.avgLoss <= 0.0
    ensures s.Summary? ==>
              var xs := Pnls(closed);
              && s.wins == |Winners(xs)| && s.losses == |Losers(xs)|
              && s.avgWin == MeanOrZero(Winners(xs)) && s.avgLoss == MeanOrZero(Losers(xs))
  {
    if closed == [] then NoData
    else
      var xs := Pnls(closed);
      var w := Winners(xs);
      var l := Losers(xs);
      WinnersLosersPartition(xs);
      GroupSigns(xs);
      MeanSign(w);
      MeanSign(l);
      var rate := WinRate(|w|, |xs|);
      Summary(Sum(xs), |xs|, |w|, |l|, rate, MeanOrZero(w), MeanOrZero(l))
  }

  /** `wins / total * 100`, within [0, 100]. */
  function WinRate(wins: nat, total: nat): (r: real)
    requires 0 < total && wins <= total
    ensures 0.0 <= r <= 100.0 && r * total as real == 100.0 * wins as real
  {
    var r := wins as real / total as real * 100.0;
    assert wins as real / total as real * total as real == wins as real;
    assert wins as real / total as real <= 1.0;
    r
  }

  /** The per-strategy table: every strategy's total profit and number of closed trades. */
  function PerStrategy(closed: seq<Closed>): (m: map<StrategyId, (real, nat)>)
    ensures forall id :: id in m <==> exists k | 0 <= k < |closed| :: closed[k].strategy == id
  {
    if closed == [] then map[]
    else
      var prev := PerStrategy(closed[..|closed| - 1]);
      var c := closed[|closed| - 1];
      var row := if c.strategy in prev then prev[c.strategy] else (0.0, 0);
      var m := prev[c.strategy := (row.0 + c.pnl, row.1 + 1)];
      assert forall id :: id in m <==> exists k | 0 <= k < |closed| :: closed[k].strategy == id by {
        forall id ensures id in m <==> exists k | 0 <= k < |closed| :: closed[k].strategy == id {
          if id in prev && id != c.strategy {
            var k :| 0 <= k < |closed| - 1 && closed[..|closed| - 1][k].strategy == id;
            assert closed[k].strategy == id;
          }
          if (exists k | 0 <= k < |closed| :: closed[k].strategy == id) {
            var k :| 0 <= k < |closed| && closed[k].strategy == id;
            if k < |closed| - 1 {
              assert closed[..|closed| - 1][k].strategy == id;
            }
          }
        }
      }
      m
  }

  /** The profits of one strategy's closed trades, in order. */
  function PnlsOf(closed: seq<Closed>, id: StrategyId): seq<real> {
    if closed == [] then []
    else PnlsOf(closed[..|closed| - 1], id) + (if closed[|closed| - 1].strategy == id then [closed[|closed| - 1].pnl] else [])
  }

  function SumBack(xs: seq<real>): real {
    if xs == [] then 0.0 else SumBack(xs[..|xs| - 1]) + xs[|xs| - 1]
  }

  /** Each row of the table is the sum and the count of that strategy's profits. */
  lemma {:induction false} PerStrategyRows(closed: seq<Closed>, id: StrategyId)
    requires id in PerStrategy(closed)
    ensures PerStrategy(closed)[id] == (SumBack(PnlsOf(closed, id)), |PnlsOf(closed, id)|)
  {
    var prefix := closed[..|closed| - 1];
    var c := closed[|closed| - 1];
    var prev := PerStrategy(prefix);
    var xs := PnlsOf(prefix, id);
    if id in prev {
      PerStrategyRows(prefix, id);
    } else {
      NoRowNoProfits(prefix, id);
    }
    if c.strategy == id {
      assert PnlsOf(closed, id) == xs + [c.pnl];
      assert (xs + [c.pnl])[..|xs|] == xs;
      assert SumBack(xs + [c.pnl]) == SumBack(xs) + c.pnl;
    } else {
      assert PnlsOf(closed, id) == xs;
      assert PerStrategy(closed)[id] == prev[id];
    }
  }

  lemma {:induction false} NoRowNoProfits(closed: seq<Closed>, id: StrategyId)
    requires id !in PerStrategy(closed)
    ensures PnlsOf(closed, id) == []
  {
    if closed != [] {
      NoRowNoProfits(closed[..|closed| - 1], id);
      assert closed[|closed| - 1].strategy != id;
    }
  }

  // ---------------------------------------------------------------------------
  // Average cost against first in, first out
  // ---------------------------------------------------------------------------

  /** Buys of 10 at 100 and 5 at 110 and a sell of 12 at 120 realize 200 at the average
      cost of 310/3 and leave 3 units carrying 310; matched first in, first out, the
      same trades give a round trip of 220 and leave 3 at 110. */
  lemma AverageCostDiffersFromFifo()
    ensures var trades := [Trade("T", Buy, 10, "X", 100.0), Trade("T", Buy, 5, "X", 110.0),
                           Trade("T", Sell, 12, "X", 120.0)];
            var r := Replay(trades);
            r.closed == [Closed("T", "X", 200.0, 12)] && PoolOf(r.pools, "X") == Pool(3, 310.0)
    ensures var fills := [Backtest.Fill("T", Buy, 10, 100.0, 0.0), Backtest.Fill("T", Buy, 5, 110.0, 0.0),
                          Backtest.Fill("T", Sell, 12, 120.0, 0.0)];
            RoundTrips.Replay(fills).pnls == [220.0]
  {
    var trades := [Trade("T", Buy, 10, "X", 100.0), Trade("T", Buy, 5, "X", 110.0),
                   Trade("T", Sell, 12, "X", 120.0)];
    assert trades[..1][..0] == [];
    assert trades[..2][..1] == trades[..1];
    assert trades[..3] == trades;
    var a1 := Replay(trades[..1]);
    assert Replay(trades[..1][..0]) == Realized(map[], []);
    assert a1 == Step(Realized(map[], []), trades[0]);
    assert PoolOf(a1.pools, "X") == Pool(10, 1000.0);
    var a2 := Replay(trades[..2]);
    assert a2 == Step(a1, trades[1]);
    assert PoolOf(a2.pools, "X") == Pool(15, 1550.0);
    var s := CloseFromPool(Pool(15, 1550.0), 12, 120.0);
    assert AverageCost(Pool(15, 1550.0)) == 310.0 / 3.0;
    assert s == (Pool(3, 310.0), 200.0, 12);
    RoundTrips.ExampleRoundTrip();
  }
}
