/** The backtest cost model: a fee schedule of proportional components (Indian equity
    delivery charges) and a fixed basis-point slippage on the execution price. */
module Costs {
  import opened Trading

  const BrokeragePct: real := 0.0003
  const SttPct: real := 0.001
  const ExchangeTxnPct: real := 0.0000345
  const GstPct: real := 0.18
  const SebiFeesPct: real := 0.000001
  const StampDutyPct: real := 0.00015

  /** Effective fee rates once GST on brokerage and exchange charges is folded in. */
  const SellRate: real := 0.00139571
  const BuyRate: real := 0.00154571

  /** Slippage of the backtest configuration, in basis points. */
  const SlippageBps: nat := 10

  /** Total transaction cost of a trade of the given notional value. */
  function TransactionCost(value: real, side: Side): (cost: real)
    ensures cost == value * (if side == Buy then BuyRate else SellRate)
    ensures 0.0 <= value ==> 0.0 <= cost
  {
    var brokerage := value * BrokeragePct;
    var stt := value * SttPct;
    var exchangeTxnCharge := value * ExchangeTxnPct;
    var gst := (brokerage + exchangeTxnCharge) * GstPct;
    var sebiFees := value * SebiFeesPct;
    var stampDuty := if side == Buy then value * StampDutyPct else 0.0;
    brokerage + stt + exchangeTxnCharge + gst + sebiFees + stampDuty
  }

  /** The cost is linear in the notional: scaling the trade scales the cost. */
  lemma CostIsLinear(value: real, k: real, side: Side)
    ensures TransactionCost(k * value, side) == k * TransactionCost(value, side)
  {
  }

  /** Stamp duty is the only side-dependent component. */
  lemma StampDutyOnlyOnBuy(value: real)
    ensures TransactionCost(value, Buy) - TransactionCost(value, Sell) == value * StampDutyPct
  {
  }

  /** The slippage fraction `SLIPPAGE_BPS / 10000`. */
  function Slippage(): (s: real)
    ensures s == 0.001
  {
    SlippageBps as real / 10000.0
  }

  /** Execution price: inflated for a buy and deflated for a sell by the slippage. */
  function ExecutionPrice(price: real, side: Side): (p: real)
    ensures side == Buy ==> p == price * 1.001
    ensures side == Sell ==> p == price * 0.999
    ensures 0.0 <= price ==> 0.0 <= p
    ensures 0.0 < price ==> (side == Buy ==> price < p) && (side == Sell ==> p < price)
  {
    price * (if side == Buy then 1.0 + Slippage() else 1.0 - Slippage())
  }

  /** Buy and sell execution prices are symmetric about the reference price. */
  lemma SlippageIsSymmetric(price: real)
    ensures ExecutionPrice(price, Buy) + ExecutionPrice(price, Sell) == 2.0 * price
    ensures ExecutionPrice(price, Buy) - ExecutionPrice(price, Sell) == 2.0 * price * Slippage()
  {
  }
}
