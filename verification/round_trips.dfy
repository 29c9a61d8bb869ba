/** Round-trip attribution of a backtest trade log: every sell is matched against the
    oldest still-open buys of the same strategy id (first in, first out), and the
    profit of each sell that matched anything with a non-zero result is reported. */
module RoundTrips {
  import opened Trading
  import opened Backtest

  /** An open buy (the quantity not yet matched and its execution price), or one
      matched piece of it. */
  datatype Lot = Lot(qty: int, price: real)

  /** How one sell met the open lots: the pieces it consumed in matching order (one per
      turn of the matching loop), the lots left open and the part of the sell quantity
      that found no lot. */
  datatype Split = Split(consumed: seq<Lot>, rest: seq<Lot>, unmatched: int)

  /** The open lots of every strategy id, oldest first. */
  type Book = map<StrategyId, seq<Lot>>

  datatype Attribution = Attribution(book: Book, pnls: seq<real>)

  /** The open lots of a strategy id; an unseen id has none. */
  function LotsOf(book: Book, id: StrategyId): seq<Lot> {
    if id in book then book[id] else []
  }

  function OpenQty(lots: seq<Lot>): int {
    if lots == [] then 0 else lots[0].qty + OpenQty(lots[1..])
  }

  /** Total purchase cost of the lots. */
  function OpenCost(lots: seq<Lot>): real {
    if lots == [] then 0.0 else lots[0].qty as real * lots[0].price + OpenCost(lots[1..])
  }

  predicate AllPositive(lots: seq<Lot>) {
    forall k | 0 <= k < |lots| :: lots[k].qty > 0
  }

  /** The matching loop for one sell of `qty`. The head lot is matched for
      `min(remaining, lot quantity)`; a lot left with nothing is dropped (for integer
      quantities the `<= 1e-6` test is `<= 0`), and the loop stops when the sell is
      exhausted or no lot is left. */
  function MatchFifo(lots: seq<Lot>, qty: int): (s: Split)
    ensures |s.rest| <= |lots|
    ensures qty <= 0 ==> s == Split([], lots, qty)
    decreases |lots|
  {
    if qty <= 0 || lots == [] then Split([], lots, qty)
    else
      var b := lots[0];
      if qty < b.qty then
        Split([Lot(qty, b.price)], [Lot(b.qty - qty, b.price)] + lots[1..], 0)
      else
        var r := MatchFifo(lots[1..], qty - b.qty);
        Split([b] + r.consumed, r.rest, r.unmatched)
  }

  /** The round-trip profit accumulated over the matched pieces: each contributes
      `(sell price - buy price) * matched quantity`. */
  function PiecewisePnl(pieces: seq<Lot>, price: real): real {
    if pieces == [] then 0.0
    else (price - pieces[0].price) * pieces[0].qty as real + PiecewisePnl(pieces[1..], price)
  }

  /** The consumed pieces and the lots left open together make up the lots before the
      sell, in quantity and in purchase cost. */
  predicate SplitsLots(lots: seq<Lot>, consumed: seq<Lot>, rest: seq<Lot>) {
    && OpenQty(lots) == OpenQty(consumed) + OpenQty(rest)
    && OpenCost(lots) == OpenCost(consumed) + OpenCost(rest)
  }

  /** Nothing is created or lost by matching: what left the book is what was consumed. */
  lemma {:induction false} MatchFifoSplitsLots(lots: seq<Lot>, qty: int)
    ensures var s := MatchFifo(lots, qty);
            SplitsLots(lots, s.consumed, s.rest)
    decreases |lots|
  {
    if qty > 0 && lots != [] {
      var b := lots[0];
      if qty < b.qty {
        PartialLotSplits(lots, qty);
      } else {
        var r := MatchFifo(lots[1..], qty - b.qty);
        MatchFifoSplitsLots(lots[1..], qty - b.qty);
        ConsumeWholeLot(b, lots[1..], r.consumed, r.rest);
        assert lots == [b] + lots[1..];
      }
    }
  }

  lemma ConsumeWholeLot(b: Lot, tail: seq<Lot>, consumed: seq<Lot>, rest: seq<Lot>)
    requires SplitsLots(tail, consumed, rest)
    ensures SplitsLots([b] + tail, [b] + consumed, rest)
  {
    assert ([b] + consumed)[1..] == consumed;
    assert ([b] + tail)[1..] == tail;
  }

  lemma PartialLotSplits(lots: seq<Lot>, qty: int)
    requires 0 < qty && lots != [] && qty < lots[0].qty
    ensures var s := MatchFifo(lots, qty);
            SplitsLots(lots, s.consumed, s.rest)
  {
    var b := lots[0];
    var rest := [Lot(b.qty - qty, b.price)] + lots[1..];
    assert rest[1..] == lots[1..];
    assert [Lot(qty, b.price)][1..] == [];
    SplitLotCost(b.qty, qty, b.price);
  }

  lemma SplitLotCost(lotQty: int, q: int, p: real)
    ensures lotQty as real * p == q as real * p + (lotQty - q) as real * p
  {
  }

  /** FIFO: the consumed pieces are the oldest lots in order, the last one possibly
      only in part. */
  lemma {:induction false} MatchFifoConsumesOldest(lots: seq<Lot>, qty: int)
    ensures var s := MatchFifo(lots, qty);
            var c := |s.consumed|;
            && c <= |lots|
            && (c > 0 ==> && s.consumed[..c - 1] == lots[..c - 1]
                          && s.consumed[c - 1].price == lots[c - 1].price
                          && s.consumed[c - 1].qty <= lots[c - 1].qty)
    decreases |lots|
  {
    if qty > 0 && lots != [] && qty >= lots[0].qty {
      var s := MatchFifo(lots[1..], qty - lots[0].qty);
      MatchFifoConsumesOldest(lots[1..], qty - lots[0].qty);
      var c := |s.consumed|;
      if c > 0 {
        assert ([lots[0]] + s.consumed)[..c] == [lots[0]] + s.consumed[..c - 1];
        assert lots[..c] == [lots[0]] + lots[1..][..c - 1];
      }
    }
  }

  /** FIFO: what stays open is a suffix of the lots whose head may have been reduced
      but keeps its price. */
  lemma {:induction false} MatchFifoKeepsSuffix(lots: seq<Lot>, qty: int)
    ensures var s := MatchFifo(lots, qty);
            s.rest != [] ==>
              var k := |lots| - |s.rest|;
              && s.rest[1..] == lots[k + 1..]
              && s.rest[0].price == lots[k].price
              && s.rest[0].qty <= lots[k].qty
    decreases |lots|
  {
    if qty > 0 && lots != [] && qty >= lots[0].qty {
      var s := MatchFifo(lots[1..], qty - lots[0].qty);
      MatchFifoKeepsSuffix(lots[1..], qty - lots[0].qty);
      if s.rest != [] {
        var k := |lots[1..]| - |s.rest|;
        assert lots[1..][k + 1..] == lots[k + 2..];
      }
    }
  }

  /** Positive lots stay positive, and with a positive sell exactly
      `min(qty, open quantity)` is matched, the rest of the sell being left unmatched
      only once every lot is gone. */
  lemma {:induction false} MatchFifoConservesQuantity(lots: seq<Lot>, qty: int)
    requires AllPositive(lots) && 0 <= qty
    ensures var s := MatchFifo(lots, qty);
            && AllPositive(s.rest)
            && OpenQty(lots) - OpenQty(s.rest) == Min(qty, OpenQty(lots))
            && s.unmatched == qty - Min(qty, OpenQty(lots))
            && (s.unmatched > 0 ==> s.rest == [])
    decreases |lots|
  {
    if qty > 0 && lots != [] && qty >= lots[0].qty {
      MatchFifoConservesQuantity(lots[1..], qty - lots[0].qty);
    }
    if lots != [] {
      OpenQtyPositive(lots[1..]);
    }
  }

  lemma {:induction false} OpenQtyPositive(lots: seq<Lot>)
    requires AllPositive(lots)
    ensures 0 <= OpenQty(lots)
    ensures lots != [] ==> 0 < OpenQty(lots)
  {
    if lots != [] {
      OpenQtyPositive(lots[1..]);
    }
  }

  /** `pnl` is the proceeds of selling the pieces at `price` less their purchase cost. */
  predicate ProceedsLessCost(pnl: real, pieces: seq<Lot>, price: real) {
    pnl == price * OpenQty(pieces) as real - OpenCost(pieces)
  }

  /** Accumulating piece by piece earns the proceeds less the purchase cost. */
  lemma {:induction false} PiecewisePnlIsProceedsLessCost(pieces: seq<Lot>, price: real)
    ensures ProceedsLessCost(PiecewisePnl(pieces, price), pieces, price)
  {
    if pieces != [] {
      PiecewisePnlIsProceedsLessCost(pieces[1..], price);
      PieceAlgebra(price, pieces[0].price, pieces[0].qty as real, OpenQty(pieces[1..]) as real,
                   OpenCost(pieces[1..]), PiecewisePnl(pieces[1..], price));
    }
  }

  lemma PieceAlgebra(price: real, p: real, q: real, restQty: real, restCost: real, restPnl: real)
    requires restPnl == price * restQty - restCost
    ensures (price - p) * q + restPnl == price * (q + restQty) - (q * p + restCost)
  {
  }

  /** Conservation: a sell's round-trip profit is the quantity that left the book at
      the sell price less the purchase cost that left the book. */
  lemma SellPnlConservation(lots: seq<Lot>, qty: int, price: real)
    ensures var s := MatchFifo(lots, qty);
            ProceedsLessCost(PiecewisePnl(s.consumed, price), s.consumed, price)
            && SplitsLots(lots, s.consumed, s.rest)
  {
    var s := MatchFifo(lots, qty);
    MatchFifoSplitsLots(lots, qty);
    PiecewisePnlIsProceedsLessCost(s.consumed, price);
  }

  /** One entry of the trade log. A buy opens a lot; a sell for an id with no open lot
      is skipped; otherwise the sell is matched and its profit reported when non-zero. */
  function Step(a: Attribution, f: Fill): (r: Attribution)
    ensures forall id | id != f.id :: LotsOf(r.book, id) == LotsOf(a.book, id)
    ensures f.side == Buy ==> r.pnls == a.pnls && LotsOf(r.book, f.id) == LotsOf(a.book, f.id) + [Lot(f.qty, f.price)]
    ensures f.side == Sell && LotsOf(a.book, f.id) == [] ==> r == a
    ensures f.side == Sell ==>
              var s := MatchFifo(LotsOf(a.book, f.id), f.qty);
              var pnl := PiecewisePnl(s.consumed, f.price);
              && LotsOf(r.book, f.id) == s.rest
              && r.pnls == a.pnls + (if pnl != 0.0 then [pnl] else [])
  {
    var lots := LotsOf(a.book, f.id);
    if f.side == Buy then
      Attribution(a.book[f.id := lots + [Lot(f.qty, f.price)]], a.pnls)
    else if lots == [] then a
    else
      var s := MatchFifo(lots, f.qty);
      var pnl := PiecewisePnl(s.consumed, f.price);
      Attribution(a.book[f.id := s.rest], if pnl != 0.0 then a.pnls + [pnl] else a.pnls)
  }

  function CountSells(fills: seq<Fill>): nat {
    if fills == [] then 0
    else CountSells(fills[..|fills| - 1]) + (if fills[|fills| - 1].side == Sell then 1 else 0)
  }

  /** The attribution of a whole trade log, entry by entry in log order. */
  function Replay(fills: seq<Fill>): (r: Attribution)
    ensures |r.pnls| <= CountSells(fills)
    ensures forall k | 0 <= k < |r.pnls| :: r.pnls[k] != 0.0
  {
    if fills == [] then Attribution(map[], [])
    else Step(Replay(fills[..|fills| - 1]), fills[|fills| - 1])
  }

  /** Every open lot of every id keeps a positive quantity when the log's quantities
      are positive (as the simulator's fills always are). */
  lemma {:induction false} ReplayKeepsLotsPositive(fills: seq<Fill>, id: StrategyId)
    requires forall k | 0 <= k < |fills| :: fills[k].qty > 0
    ensures AllPositive(LotsOf(Replay(fills).book, id))
  {
    if fills != [] {
      var prev := Replay(fills[..|fills| - 1]);
      var f := fills[|fills| - 1];
      ReplayKeepsLotsPositive(fills[..|fills| - 1], id);
      if f.id == id && f.side == Sell {
        MatchFifoConservesQuantity(LotsOf(prev.book, id), f.qty);
      }
    }
  }

  /** `calculate_round_trip_pnl`: the non-zero round-trip profits, one per sell that
      matched something, in log order. */
  method CalculateRoundTripPnl(fills: seq<Fill>) returns (pnls: seq<real>)
    ensures pnls == Replay(fills).pnls
    ensures |pnls| <= CountSells(fills)
    ensures forall k | 0 <= k < |pnls| :: pnls[k] != 0.0
  {
    var a := Attribution(map[], []);
    var i := 0;
    while i < |fills|
      invariant 0 <= i <= |fills|
      invariant a == Replay(fills[..i])
    {
      assert fills[..i + 1][..i] == fills[..i];
      a := Step(a, fills[i]);
      i := i + 1;
    }
    assert fills[..i] == fills;
    pnls := a.pnls;
  }

  /** Buys of 10 at 100 and 5 at 110 followed by a sell of 12 at 120 give one round
      trip of 220 and leave 3 at 110 open. */
  lemma ExampleRoundTrip()
    ensures var fills := [Fill("T", Buy, 10, 100.0, 0.0), Fill("T", Buy, 5, 110.0, 0.0),
                          Fill("T", Sell, 12, 120.0, 0.0)];
            var r := Replay(fills);
            r.pnls == [220.0] && LotsOf(r.book, "T") == [Lot(3, 110.0)]
  {
    var fills := [Fill("T", Buy, 10, 100.0, 0.0), Fill("T", Buy, 5, 110.0, 0.0),
                  Fill("T", Sell, 12, 120.0, 0.0)];
    assert fills[..1][..0] == [];
    assert fills[..2][..1] == fills[..1];
    assert fills[..3] == fills;
    var a1 := Replay(fills[..1]);
    assert Replay(fills[..1][..0]) == Attribution(map[], []);
    assert a1 == Step(Attribution(map[], []), fills[0]);
    assert LotsOf(a1.book, "T") == [Lot(10, 100.0)];
    var a2 := Replay(fills[..2]);
    assert a2 == Step(a1, fills[1]);
    assert LotsOf(a2.book, "T") == [Lot(10, 100.0), Lot(5, 110.0)];
    assert MatchFifo([Lot(5, 110.0)], 2) == Split([Lot(2, 110.0)], [Lot(3, 110.0)], 0);
    var s := MatchFifo([Lot(10, 100.0), Lot(5, 110.0)], 12);
    assert s == Split([Lot(10, 100.0), Lot(2, 110.0)], [Lot(3, 110.0)], 0);
    assert PiecewisePnl(s.consumed, 120.0) == 220.0;
  }
}
