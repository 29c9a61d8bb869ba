# Position and cash bookkeeping of the quantitative desk

This project models, in Dafny, how the trading desk keeps positions and cash on its two
execution paths, together with the decision and attribution rules around them.

- **Atlas, the backtest engine.** The portfolio manager splits the firm capital equally
  among the registered strategies. Every active bar, it turns stop-loss and take-profit
  hits and the strategies' own BUY/SELL signals into queued orders. The market simulator
  then settles the queue against each strategy's cash and shares, with basis-point
  slippage and an Indian equity-delivery fee schedule, while the bar series is replayed
  through a bounded rolling history.
- **Citadel, the live engine.** The risk manager's per-order notional gate, and the
  chief investment officer (CIO). The CIO keeps per-symbol position maps for each live
  strategy and updates the last known prices from each round of ticks. It settles orders
  at those prices without costs or slippage, counts and logs every fill, and saves a
  ledger of the positive positions after each fill. That ledger is merged back on start-up.
- **Strategy decision rules.** The trend-following and mean-reversion families, in their
  backtest and live variants. Each is a guarded state machine over flat/long:
  - warm-up holds;
  - BUY comes only when flat and arms the exit prices;
  - SELL comes only when holding.
- **Trade attribution.**
  - First-in-first-out round-trip profit per strategy id over the backtest trade log.
  - Average-cost realized profit per symbol over the live trade log, with its summary
    statistics: total, win rate, mean win and loss, and the per-strategy table.
- **Metrics and the optimizer.** Per backtest: the equity-curve returns, the drawdown
  against the running peak, and the Sharpe, Sortino and Calmar ratios with their zero
  fall-backs. For the optimizer: the two parameter grids and their product, the trial
  count, one result row per sampled trial, and the choice of the best Sharpe row.

Money is `real`, and share quantities are `int`, with solvency predicates stating
`cash >= 0` and `shares >= 0`. Python's `int()` on a float is truncation toward zero
(`Trading.Trunc`). Indicator values are inputs to the model: moving averages, the
standard deviation, the RSI and the exponentially weighted ATR, all computed with pandas
or pandas_ta in the source. The same goes for the annualised standard deviations and for
the optimizer's random draw. Dictionaries that the source iterates in insertion order are
sequences with distinct keys. Dictionaries read with `.get(key, 0)` are maps, with a
lookup that reads a missing key as zero.

Modules:

| module | source |
|---|---|
| `Trading` | shared vocabulary: sides, signals, parameters, exit-price formulas, truncation |
| `Costs` | `TransactionCostCalculator` and slippage |
| `AtlasStrategies` | the backtest strategies |
| `Backtest` | `PortfolioManager` and `MarketSimulator` |
| `RoundTrips` | `TradeAnalyzer.calculate_round_trip_pnl` |
| `Performance` | `PerformanceAnalyzer.calculate_metrics` |
| `Optimizer` | `ParameterOptimizer.run` and `ReportGenerator.get_best_params` |
| `LiveStrategies` | the live strategies |
| `Citadel` | `RiskManager` and `ChiefInvestmentOfficer` |
| `LogAnalyzer` | `calculate_realized_pnl` and `analyze_performance` |

Where the code and its own labels disagree, the model follows the code:

- `calculate_realized_pnl` is documented as first-in-first-out, but it pools each symbol
  at average cost. `LogAnalyzer.AverageCostDiffersFromFifo` proves that the two methods
  give different answers on the same three trades: 200 by average cost, 220 by FIFO.
- The risk manager's drawdown-breach flag is only ever cleared, never set. The only gate
  is the notional limit.
- The live configuration's risk-per-trade value is never read. Both strategy base classes
  fix the risk fraction at 2%. Live BUY sizing is `trunc(cash * 0.02 / price)`, not an
  ATR-based size.
- The backtest mean-reversion strategy exits on a close above the mean. The live one
  exits only above the upper band.
- The CIO assesses the new day before any tick arrives and before the capital split. The
  assessed peak equity is therefore 0 whatever ledger was loaded (`Citadel.NewCio`).
- A stop-loss or take-profit sale that the risk gate refuses still clears the exit prices.
  The position stays open with no exits armed (`Citadel.RefusedStopLossDisarms`).

## Model

| member | source | states |
|---|---|---|
| Trading.Trunc | quantitative_desk/project_atlas/strategy_library.py:69 | `int()` truncates toward zero: for x >= 0 the result is the largest integer not above x; for x < 0 it is the smallest integer not below x |
| Trading.StopLossPrice | quantitative_desk/project_atlas/strategy_library.py:70 | the armed stop-loss lies strictly below a positive entry for a positive percentage, and equals the entry at 0% |
| Trading.TakeProfitPrice | quantitative_desk/project_atlas/strategy_library.py:71 | the armed take-profit lies strictly above a positive entry for a positive percentage, and equals the entry at 0% |
| Trading.ExitPricesBracketEntry | quantitative_desk/project_citadel/strategies_citadel.py:27-29 | for a positive entry, stop-loss in (0,1) and positive take-profit: 0 < SL < entry < TP |
| Costs.TransactionCost | quantitative_desk/project_atlas/infrastructure.py:16-31 | the six fee components add up to value x 0.00154571 on a buy and value x 0.00139571 on a sell; non-negative for a non-negative value |
| Costs.CostIsLinear | quantitative_desk/project_atlas/infrastructure.py:23-31 | scaling the notional by k scales the cost by k (doubling doubles it) |
| Costs.StampDutyOnlyOnBuy | quantitative_desk/project_atlas/infrastructure.py:21-29 | buy cost minus sell cost of the same value is exactly value x STAMP_DUTY_PCT |
| Costs.ExecutionPrice | quantitative_desk/project_atlas/infrastructure.py:175 | a buy executes at price x 1.001 (above a positive price), a sell at price x 0.999 (below it); never negative for a non-negative price |
| Costs.SlippageIsSymmetric | quantitative_desk/project_atlas/infrastructure.py:175 | buy and sell execution prices are symmetric about the price and 2 x price x slippage apart |
| AtlasStrategies.NewStrategy | quantitative_desk/project_atlas/strategy_library.py:14-22 | a new strategy has its id and config, no cash, no shares and no armed exits |
| AtlasStrategies.Equity | quantitative_desk/project_atlas/strategy_library.py:25-26 | a flat strategy is worth its cash; a solvent one at a non-negative price is worth at least its cash |
| AtlasStrategies.SetCapital | quantitative_desk/project_atlas/strategy_library.py:25-30 | after `set_capital`, equity at every price equals the capital (shares are dropped); id, config and exits kept |
| AtlasStrategies.ClearExits | quantitative_desk/project_atlas/strategy_library.py:32-34 | both exits inactive afterwards, cash and shares untouched |
| AtlasStrategies.ArmExits | quantitative_desk/project_atlas/strategy_library.py:70-71 | cash and shares untouched; for valid percentages the armed exits bracket the entry price strictly |
| AtlasStrategies.Atr | quantitative_desk/project_atlas/strategy_library.py:36-45 | 0 when the history is shorter than 14 bars, lacks High/Low/Close, or the smoothed value is NaN; any non-zero ATR is the smoothed value |
| AtlasStrategies.DecideAction | quantitative_desk/project_atlas/strategy_library.py:52-107 | only exits change; warm-up gives (HOLD, 0); BUY iff warmed up, flat, entry condition and ATR > 0, with quantity trunc(cash x 0.02 / ATR) and exits armed from the price; SELL iff warmed up, holding and exit condition, with quantity 0 and exits cleared; HOLD leaves the strategy as it was |
| AtlasStrategies.TrendFollowingRules | quantitative_desk/project_atlas/strategy_library.py:52-78 | once warmed up, the trend family buys iff flat, short SMA > long SMA, RSI > threshold and ATR > 0, and sells iff holding and short SMA < long SMA |
| AtlasStrategies.MeanReversionRules | quantitative_desk/project_atlas/strategy_library.py:81-107 | once warmed up, mean reversion buys iff flat, price < SMA - k x std, RSI < oversold and ATR > 0, and sells iff holding and price > SMA |
| AtlasStrategies.BuyQuantityBounded | quantitative_desk/project_atlas/strategy_library.py:67-69 | with non-negative cash a BUY quantity is non-negative and quantity x ATR never exceeds 2% of cash |
| Backtest.IndexOf | quantitative_desk/project_atlas/infrastructure.py:174 | the dictionary lookup finds the first strategy with the id, and finds none exactly when the id is not registered |
| Backtest.TotalEquitySplit | quantitative_desk/project_atlas/infrastructure.py:99-100 | the firm's equity is its total cash plus its total shares marked at the price |
| Backtest.FlatBookEquity | quantitative_desk/project_atlas/infrastructure.py:99-100 | with no shares held, total equity is total cash at every price |
| Backtest.Rebalance | quantitative_desk/project_atlas/infrastructure.py:102-109 | every strategy gets capital / n and zero shares with id, config and exits kept; no-op with no strategies |
| Backtest.RebalanceConservesCapital | quantitative_desk/project_atlas/infrastructure.py:102-109 | after the split, total cash and total equity at any price equal the capital, and non-negative capital leaves every strategy solvent |
| Backtest.NewPortfolio | quantitative_desk/project_atlas/infrastructure.py:90-97 | one strategy per configured family in registry order: "Trend" with the trend config first, "MeanReversion" with the mean-reversion config last; each holds capital / n cash, no shares and no armed exits, so total cash equals the firm capital |
| Backtest.SubmitOrder | quantitative_desk/project_atlas/infrastructure.py:157-162 | a positive quantity is appended to the queue; a quantity <= 0 leaves it unchanged |
| Backtest.Settle | quantitative_desk/project_atlas/infrastructure.py:173-199 | a buy settles iff cash >= value + cost at the slipped price, a sell iff shares >= qty; a settled order moves cash and shares exactly as its one fill records; a failed one changes nothing |
| Backtest.SettleKeepsSolvency | quantitative_desk/project_atlas/infrastructure.py:181-199 | settling a positive order at a non-negative price keeps cash >= 0 and shares >= 0 |
| Backtest.SettleInto | quantitative_desk/project_atlas/infrastructure.py:174-199 | one order settles against the strategy it names: ids, configs and exits kept, at most one fill, solvency kept, totals moved exactly by the fill |
| Backtest.Process | quantitative_desk/project_atlas/infrastructure.py:170-199 | the orders settle in submission order; at most one fill per order; solvency kept; total cash and shares move exactly by the fills |
| Backtest.ExecuteOrders | quantitative_desk/project_atlas/infrastructure.py:164-199 | the queue is left empty, the log only grows at its end by at most one entry per order, solvency is kept, totals move exactly by the new fills, and an empty queue changes nothing |
| Backtest.ProcessIsPerStrategy | quantitative_desk/project_atlas/infrastructure.py:170-199 | each strategy ends exactly as if its own orders had been settled alone, oldest first |
| Backtest.OperateOne | quantitative_desk/project_atlas/infrastructure.py:112-136 | a stop-loss hit (checked first) or a take-profit hit sells all shares, clears the exits and skips the decision; otherwise the decision runs and its signal becomes the order: a BUY of positive size queues a buy of exactly that size, a SELL while holding queues a sale of the whole position, anything else queues nothing |
| Backtest.HoldingNeverBuys | quantitative_desk/project_atlas/infrastructure.py:113-136 | a strategy that holds shares only ever submits a sale of its whole position |
| Backtest.Operate | quantitative_desk/project_atlas/infrastructure.py:112-138 | every strategy keeps its book, and the queue grows only at its end by at most one positive order per strategy, each for a registered id |
| Backtest.OperateOneAnyQueue | quantitative_desk/project_atlas/infrastructure.py:112-136 | a strategy's decision does not depend on the orders already queued: it appends the same orders it would submit to an empty queue |
| Backtest.OperateIsPerStrategy | quantitative_desk/project_atlas/infrastructure.py:112-138 | every strategy ends the day exactly as it would acting alone on the same price and history |
| Backtest.OperateOrdersPerStrategy | quantitative_desk/project_atlas/infrastructure.py:112-138 | with distinct ids, the orders each strategy adds to the queue are exactly the orders it would submit alone, in order |
| Backtest.RunDailyOperations | quantitative_desk/project_atlas/infrastructure.py:111-138 | a valid queue stays valid and only grows at its end; each strategy ends as it would acting alone and, with distinct ids, the new orders of each id are exactly the ones it would submit alone; ids, total cash, solvency, log, price and history unchanged |
| Backtest.MaxLookback | quantitative_desk/project_atlas/infrastructure.py:205-213 | the warm-up window is at least 20, at least every strategy's long/plain and RSI window, and equal to 20 or one of them |
| Backtest.PushBarShape | quantitative_desk/project_atlas/infrastructure.py:223-226 | below capacity the bar is appended; at or above it the oldest bar is dropped and the bar appended, so a history within capacity stays within it |
| Backtest.PushBarSlides | quantitative_desk/project_atlas/infrastructure.py:223-226 | appending a bar and dropping the oldest beyond capacity yields exactly the trailing window of the bars seen, never longer than the capacity |
| Backtest.Cycle | quantitative_desk/project_atlas/infrastructure.py:228-231 | an active bar leaves the queue empty, keeps ids, only appends to the log and keeps solvency at a non-negative price |
| Backtest.CycleIsPerStrategy | quantitative_desk/project_atlas/infrastructure.py:228-231 | with distinct ids, an active bar is per strategy: each ends as its own decision on the bar followed by the settlement, in order, of the orders that decision submitted |
| Backtest.Advance | quantitative_desk/project_atlas/infrastructure.py:220-226 | a new bar sets the price to its close and slides the history window by one bar |
| Backtest.RunFrom | quantitative_desk/project_atlas/infrastructure.py:219-232 | the replay ends with an empty queue and the trailing history window, recording one equity point per bar past warm-up |
| Backtest.RunFromEndPrice | quantitative_desk/project_atlas/infrastructure.py:219-220 | a replay of at least one bar ends with the last close as its price |
| Backtest.RunFromLastPoint | quantitative_desk/project_atlas/infrastructure.py:228-231 | the last equity point recorded is the firm's total equity in the replay's final state |
| Backtest.ActiveBarsCount | quantitative_desk/project_atlas/infrastructure.py:228 | the number of bars at index >= w - 1 in closed form |
| Backtest.Run | quantitative_desk/project_atlas/infrastructure.py:201-243 | the equity curve has one point per bar from the warm-up window on (n - w + 1, or none), its last point the firm's equity at the last close, and the trade log is the replay's log; an empty curve comes with an empty trade log |
| Backtest.RunKeepsSolvency | quantitative_desk/project_atlas/infrastructure.py:219-231 | over a replay with non-negative closes, no strategy's cash or shares ever go negative |
| RoundTrips.MatchFifo | quantitative_desk/project_atlas/analysis.py:35-42 | the matching loop never leaves more lots than it found, and a non-positive sell matches nothing |
| RoundTrips.MatchFifoSplitsLots | quantitative_desk/project_atlas/analysis.py:35-42 | the consumed pieces plus the lots left open make up the lots before the sell, in quantity and in purchase cost |
| RoundTrips.MatchFifoConsumesOldest | quantitative_desk/project_atlas/analysis.py:35-42 | the consumed pieces are the oldest lots in order, the last possibly in part at its own price |
| RoundTrips.MatchFifoKeepsSuffix | quantitative_desk/project_atlas/analysis.py:35-42 | what stays open is a suffix of the lots whose head may be reduced but keeps its price |
| RoundTrips.MatchFifoConservesQuantity | quantitative_desk/project_atlas/analysis.py:35-42 | open lots stay positive; exactly min(qty, open quantity) is matched; the excess is unmatched, and only once every lot is gone |
| RoundTrips.PiecewisePnlIsProceedsLessCost | quantitative_desk/project_atlas/analysis.py:33-38 | accumulating (sell price - buy price) x matched quantity equals proceeds less purchase cost of the pieces |
| RoundTrips.SellPnlConservation | quantitative_desk/project_atlas/analysis.py:31-42 | a sell's round-trip profit is the quantity that left the book at the sell price less the cost that left the book |
| RoundTrips.Step | quantitative_desk/project_atlas/analysis.py:24-45 | a buy opens a lot at the end of its id's queue; a sell for an id with no open lot is skipped; otherwise the lots become the matching's remainder and the profit is reported iff non-zero; other ids untouched |
| RoundTrips.Replay | quantitative_desk/project_atlas/analysis.py:20-46 | no more profits than sells, and no zero profit reported |
| RoundTrips.ReplayKeepsLotsPositive | quantitative_desk/project_atlas/analysis.py:39-42 | with positive fill quantities, every open lot keeps a positive quantity |
| RoundTrips.CalculateRoundTripPnl | quantitative_desk/project_atlas/analysis.py:20-46 | the loop yields the replay's profits: at most one per sell, none zero |
| RoundTrips.ExampleRoundTrip | quantitative_desk/project_atlas/analysis.py:20-46 | buys 10@100 and 5@110 then a sell 12@120 give [220] and leave 3@110 open |
| Performance.PctChange | quantitative_desk/project_atlas/analysis.py:52 | one simple return per consecutive pair of a positive curve |
| Performance.GrowthPositive | quantitative_desk/project_atlas/analysis.py:72 | the compounded curve stays positive while every return is above -100% |
| Performance.Peak | quantitative_desk/project_atlas/analysis.py:73 | the running peak is at least the current compounded value |
| Performance.PeakIsRunningMax | quantitative_desk/project_atlas/analysis.py:73 | the running peak is the maximum of the compounded values so far and is attained |
| Performance.DrawdownBounds | quantitative_desk/project_atlas/analysis.py:74 | every drawdown lies in (-1, 0] |
| Performance.MinDrawdownIsDeepest | quantitative_desk/project_atlas/analysis.py:75 | the maximum drawdown is the deepest drawdown, is attained, and lies in (-1, 0] |
| Performance.MaxDrawdown | quantitative_desk/project_atlas/analysis.py:72-75 | the one-pass computation of cumulative value, running peak and minimum gives the deepest drawdown, in (-1, 0] |
| Performance.Ratio | quantitative_desk/project_atlas/analysis.py:66-76 | 0 unless the denominator is positive; otherwise ratio x denominator is the numerator |
| Performance.CalculateMetrics | quantitative_desk/project_atlas/analysis.py:59-76 | fewer than 2 returns give all zeros; otherwise Sharpe and Sortino are (252 x mean - rf) over their annualised deviation, or 0 when that deviation is not positive (Sortino also when no return is negative); max drawdown as above; Calmar 0 unless the drawdown is negative, else Calmar x abs(max drawdown) is the annualised return |
| Performance.GrowthOfPctChange | quantitative_desk/project_atlas/analysis.py:52-72 | compounding the returns of a positive curve rebuilds the curve relative to its first point |
| Performance.PctChangeAboveTotalLoss | quantitative_desk/project_atlas/analysis.py:52 | a positive curve has every return above -100% |
| Optimizer.Product | quantitative_desk/project_atlas/analysis.py:119-122 | `itertools.product` has size the product of the sizes and draws each component from its factor |
| Optimizer.ProductIndex | quantitative_desk/project_atlas/analysis.py:119-122 | the (i, j) pair sits at index i x len(second) + j: lexicographic order, no pair missed |
| Optimizer.TrendGrid | quantitative_desk/project_atlas/analysis.py:119 | the trend grid's size is the product of the six axes' sizes, and every entry is a trend configuration whose values come from their axes |
| Optimizer.MeanRevGrid | quantitative_desk/project_atlas/analysis.py:120 | the mean-reversion grid's size is the product of the six axes' sizes, and every entry is a mean-reversion configuration whose values come from their axes |
| Optimizer.TrendGridCovers | quantitative_desk/project_atlas/analysis.py:119 | every combination of axis values is in the trend grid, at its index in product order (first axis slowest) |
| Optimizer.MeanRevGridCovers | quantitative_desk/project_atlas/analysis.py:120 | every combination of axis values is in the mean-reversion grid, at its index in product order (first axis slowest) |
| Optimizer.AllCombos | quantitative_desk/project_atlas/analysis.py:122 | every pair of a trend configuration with a mean-reversion configuration |
| Optimizer.TrialCount | quantitative_desk/project_atlas/analysis.py:118-124 | the configured grids hold 16 configurations each, 256 pairs, so min(24, 256) = 24 trials run |
| Optimizer.FinalEquity | quantitative_desk/project_atlas/analysis.py:143 | the last point of the curve, or 0 for an empty curve |
| Optimizer.RunOptimizer | quantitative_desk/project_atlas/analysis.py:117-147 | one row per sampled combination, in draw order, carrying its parameters, the metrics of its backtest and its final equity |
| Optimizer.GetBestParams | quantitative_desk/project_atlas/analysis.py:160-164 | None iff there are no rows; otherwise the first row whose Sharpe is maximal |
| LiveStrategies.NewLiveStrategy | quantitative_desk/project_citadel/strategies_citadel.py:9-16 | a new live strategy has no cash, no positions and no exits |
| LiveStrategies.Valuation | quantitative_desk/project_citadel/strategies_citadel.py:25 | each held symbol is valued at quantity x last known price, an unknown price counting as 0 |
| LiveStrategies.PositionValueUpdate | quantitative_desk/project_citadel/strategies_citadel.py:25 | setting one symbol's quantity changes the marked value by exactly that symbol's change |
| LiveStrategies.PositionValueUnpriced | quantitative_desk/project_citadel/strategies_citadel.py:25 | positions whose symbols are all unpriced or priced at 0 are worth nothing |
| LiveStrategies.FlatEquity | quantitative_desk/project_citadel/strategies_citadel.py:24-25 | a strategy whose positions are all zero is worth its cash at any prices |
| LiveStrategies.SetCapital | quantitative_desk/project_citadel/strategies_citadel.py:20-21 | the cash becomes the capital and the positions are kept, so equity moves by exactly the change in cash |
| LiveStrategies.SetExitPrices | quantitative_desk/project_citadel/strategies_citadel.py:27-30 | only the symbol's exits change, to entry x (1 - SL%) and entry x (1 + TP%), bracketing a positive entry |
| LiveStrategies.ClearExitPrices | quantitative_desk/project_citadel/strategies_citadel.py:33-36 | the symbol's exits read 0 afterwards; other symbols' exits and the book unchanged |
| LiveStrategies.Decide | quantitative_desk/project_citadel/strategies_citadel.py:44-126 | cash and positions never change; without enough history or an RSI it holds; BUY iff ready, flat and the entry condition holds, and it arms the exits from the price; SELL iff ready, holding and the exit condition holds; only BUY touches the strategy |
| LiveStrategies.SignalMatchesPosition | quantitative_desk/project_citadel/strategies_citadel.py:70-123 | a strategy holding the symbol never gets BUY, and a flat one never SELL |
| LiveStrategies.LiveTrendRules | quantitative_desk/project_citadel/strategies_citadel.py:63-79 | the live trend family buys iff short MA > long MA, RSI > threshold and flat, and sells iff short MA < long MA and holding |
| LiveStrategies.LiveMeanReversionRules | quantitative_desk/project_citadel/strategies_citadel.py:102-126 | a zero standard deviation holds; BUY iff price < ma - k x std, RSI < oversold and flat; SELL iff price > ma + k x std and holding |
| Citadel.IsTradeAllowed | quantitative_desk/project_citadel/components_citadel.py:43-52 | allowed iff quantity x price <= MAX_ORDER_VALUE whatever the side; exactly one alert iff denied, carrying the excessive value |
| Citadel.SmallerOrdersPass | quantitative_desk/project_citadel/components_citadel.py:44-45 | at a non-negative price, a smaller order than an allowed one is allowed |
| Citadel.AssessNewDay | quantitative_desk/project_citadel/components_citadel.py:37-40 | sets the peak equity and clears the breach flag; the trade gate answers the same before and after |
| Citadel.LiveIndexOf | quantitative_desk/project_citadel/components_citadel.py:204 | the lookup finds a strategy with the id, and finds none exactly when the id is not registered |
| Citadel.Rebalance | quantitative_desk/project_citadel/components_citadel.py:118-126 | every live strategy's cash becomes capital / n with positions and exits kept; no-op with none |
| Citadel.RebalanceConservesCapital | quantitative_desk/project_citadel/components_citadel.py:118-126 | the split hands out exactly the initial capital and keeps the ids |
| Citadel.Positive | quantitative_desk/project_citadel/components_citadel.py:89 | the snapshot of one position map holds exactly the strictly positive quantities, unchanged |
| Citadel.Snapshot | quantitative_desk/project_citadel/components_citadel.py:87-90 | the ledger has one entry per strategy id, each its positive positions |
| Citadel.Merge | quantitative_desk/project_citadel/components_citadel.py:110-112 | only known ids are merged; a known id's symbols become the union of its own and its saved entry's, the saved entry's quantities win and the other symbols keep theirs; cash and exits untouched |
| Citadel.SnapshotMergeRestores | quantitative_desk/project_citadel/components_citadel.py:87-112 | saving and loading into empty strategies with the same ids restores exactly the positive positions |
| Citadel.Settled | quantitative_desk/project_citadel/components_citadel.py:213-215 | a fill moves the position by +/- qty and the cash by -/+ qty x price, leaves other symbols, and keeps a funded strategy solvent |
| Citadel.SettledKeepsEquity | quantitative_desk/project_citadel/components_citadel.py:213-215 | a fill at the last known price leaves the strategy's equity unchanged |
| Citadel.SubmitOrder | quantitative_desk/project_citadel/components_citadel.py:190-233 | no-op without a positive last price or with qty <= 0; an over-limit order adds one RISK VIOLATION alert; an unexecuted order changes no book, count, log or ledger; an executed one settles only its strategy, counts, logs one execution and saves the ledger; solvency kept |
| Citadel.SubmitOrderKeepsEquity | quantitative_desk/project_citadel/components_citadel.py:203-215 | submitting any order leaves the total equity at the last known prices unchanged |
| Citadel.RejectedOrderChangesNothing | quantitative_desk/project_citadel/components_citadel.py:203-233 | a denied or unfunded order leaves books, count, log and ledger unchanged, with one alert iff over the limit |
| Citadel.SubmitOrderAt | quantitative_desk/project_citadel/components_citadel.py:203-215 | with distinct ids only the ordering strategy changes, its position moves by the order quantity iff it executes, and at most one fill is logged |
| Citadel.SubmitOrderLog | quantitative_desk/project_citadel/components_citadel.py:211-224 | trade count and log grow together by at most one execution, by the ordering strategy in the order's symbol |
| Citadel.ClearExits | quantitative_desk/project_citadel/components_citadel.py:158 | clearing one strategy's exits changes nothing else in the CIO state |
| Citadel.ExitPosition | quantitative_desk/project_citadel/components_citadel.py:155-166 | the whole position is offered for sale and the exits are cleared whether or not it fills; the position is 0 iff the sale executes; only this strategy changes |
| Citadel.LiveBuyQuantity | quantitative_desk/project_citadel/components_citadel.py:174 | 0 for a non-positive price; otherwise int(cash x 2% / price), which for non-negative cash is the largest size whose value fits in 2% of the cash |
| Citadel.StrategyStep | quantitative_desk/project_citadel/components_citadel.py:150-187 | a stop-loss hit (checked first) or a take-profit hit exits the whole position and skips the decision; otherwise the strategy acts on its own signal; a held position ends sold whole or untouched; only this strategy changes; solvency kept; fills are its own |
| Citadel.Act | quantitative_desk/project_citadel/components_citadel.py:169-187 | a BUY arms the exits from the price and enters; a SELL sells the whole position and clears the exits; a HOLD changes nothing; a held position ends sold whole or untouched; solvency kept |
| Citadel.Enter | quantitative_desk/project_citadel/components_citadel.py:173-179 | a BUY submits only a positive size; when that order executes the position grows by exactly the size and one BUY fill at the last price is logged, otherwise position and log are unchanged; a zero size changes nothing |
| Citadel.Replace | quantitative_desk/project_citadel/components_citadel.py:169 | installing the decided strategy state keeps ids distinct, the other strategies, the log and the count |
| Citadel.ProcessStrategies | quantitative_desk/project_citadel/components_citadel.py:150-187 | every strategy handles the tick in order: ids kept, solvency kept, count and log grow together at the end; strategies before the start index are untouched and each later one ends as it would handling the tick alone |
| Citadel.StrategyStepIsAlone | quantitative_desk/project_citadel/components_citadel.py:150-187 | a strategy handles a tick exactly as it would as the portfolio's only strategy: the other strategies, the trade count, the alerts, the log and the ledger play no part |
| Citadel.UpdatePrices | quantitative_desk/project_citadel/components_citadel.py:137-139 | no symbol loses its last known price |
| Citadel.UpdatePricesSets | quantitative_desk/project_citadel/components_citadel.py:137-139 | each priced tick's symbol gets the tick's price; a symbol without a priced tick keeps its price |
| Citadel.ProcessTick | quantitative_desk/project_citadel/components_citadel.py:143-148 | a tick without data or with an empty history is skipped and changes nothing |
| Citadel.ProcessTicks | quantitative_desk/project_citadel/components_citadel.py:143-187 | ids and solvency kept, count and log grow together at the end; each strategy ends as it would handling the same ticks alone at the same last prices, ticks without a history skipped |
| Citadel.OnMarketData | quantitative_desk/project_citadel/components_citadel.py:135-187 | prices are updated for all ticks first; no strategy is added or removed or made insolvent; every fill is counted and logged |
| Citadel.SameBookKeepsEquity | quantitative_desk/project_citadel/components_citadel.py:129-132 | a strategy that changed only its exits leaves the total equity unchanged |
| Citadel.ExitPositionKeepsEquity | quantitative_desk/project_citadel/components_citadel.py:155-166 | an exit leaves the total equity at the last known prices unchanged |
| Citadel.ActKeepsEquity | quantitative_desk/project_citadel/components_citadel.py:169-187 | acting on a signal leaves the total equity at the last known prices unchanged |
| Citadel.StrategyStepKeepsEquity | quantitative_desk/project_citadel/components_citadel.py:150-187 | one strategy's handling of a tick leaves the total equity unchanged |
| Citadel.ProcessStrategiesKeepsEquity | quantitative_desk/project_citadel/components_citadel.py:150-187 | all strategies' handling of a tick leaves the total equity unchanged |
| Citadel.ProcessTicksKeepsEquity | quantitative_desk/project_citadel/components_citadel.py:143-187 | the second pass over the ticks leaves the total equity unchanged |
| Citadel.OnMarketDataKeepsEquity | quantitative_desk/project_citadel/components_citadel.py:135-187 | trading on a round of ticks leaves the total equity, marked at the new prices, where the price update alone put it |
| Citadel.RefusedStopLossDisarms | quantitative_desk/project_citadel/components_citadel.py:155-158 | a stop-loss whose sale is refused keeps the position, disarms the stop-loss, raises one alert and logs nothing |
| Citadel.FlatTotalEquity | quantitative_desk/project_citadel/components_citadel.py:129-132 | with every position flat, the total equity is the total cash at any prices |
| Citadel.TotalEquityUnpriced | quantitative_desk/project_citadel/components_citadel.py:129-132 | strategies with no cash whose symbols are all priced at 0 have total equity 0 |
| Citadel.Registered | quantitative_desk/project_citadel/components_citadel.py:67-78 | the registry's two live strategies in order with their configs and no cash; with a saved ledger each holds exactly its saved entry (none if it has no entry), without one no positions |
| Citadel.InitialPrices | quantitative_desk/project_citadel/components_citadel.py:62 | exactly the traded symbols have a last known price, all 0 |
| Citadel.NewCio | quantitative_desk/project_citadel/components_citadel.py:56-84 | two distinct strategies with 500,000 each (1,000,000 in all); the peak equity assessed is 0; prices 0; no trades, executions or alerts; with a saved ledger each strategy holds exactly its saved entry and the ledger is the saved one, without one no positions and an empty ledger |
| LogAnalyzer.AddToPool | quantitative_desk/log_analyzer.py:55-58 | a buy adds its quantity and its value to the symbol's pool and keeps it well formed |
| LogAnalyzer.CloseFromPool | quantitative_desk/log_analyzer.py:60-76 | a sell closes min(sell qty, open qty); the rest keeps its average cost; an emptied pool carries no cost; the profit is proceeds less the cost released |
| LogAnalyzer.ReleaseAtAverage | quantitative_desk/log_analyzer.py:75-76 | releasing part of a pool at its average cost leaves the remainder at the same average, and nothing when all is released |
| LogAnalyzer.Step | quantitative_desk/log_analyzer.py:52-76 | other symbols' pools never change; a buy only grows its pool; a sell against an empty pool is ignored; otherwise one closed trade is appended |
| LogAnalyzer.CalculateRealizedPnl | quantitative_desk/log_analyzer.py:45-82 | the loop yields the replay's closed trades, at most one per sell |
| LogAnalyzer.ReplayConservesUnits | quantitative_desk/log_analyzer.py:45-76 | every pool stays well formed, open plus closed units equal units bought, and closed units never exceed units bought |
| LogAnalyzer.Winners | quantitative_desk/log_analyzer.py:93 | the winning trades are exactly the positive profits, each as often as it occurs |
| LogAnalyzer.Losers | quantitative_desk/log_analyzer.py:94 | the losing trades are exactly the profits at or below zero, each as often as it occurs |
| LogAnalyzer.WinnersLosersPartition | quantitative_desk/log_analyzer.py:91-94 | wins plus losses equal the trades, in count and in total profit |
| LogAnalyzer.GroupSigns | quantitative_desk/log_analyzer.py:93-98 | winners sum to a profit when there are any; losers sum to at most zero |
| LogAnalyzer.AnalyzePerformance | quantitative_desk/log_analyzer.py:84-98 | no data iff no closed trade; otherwise the total profit, wins and losses as the sizes of the winner and loser groups (adding up to the total), win rate = 100 x wins / total in [0, 100], and the mean of each group (0 when empty), positive for winners and at most zero for losers |
| LogAnalyzer.WinRate | quantitative_desk/log_analyzer.py:96 | the rate lies in [0, 100] and rate x total = 100 x wins |
| LogAnalyzer.PerStrategy | quantitative_desk/log_analyzer.py:112 | the table has a row exactly for each strategy with a closed trade |
| LogAnalyzer.PerStrategyRows | quantitative_desk/log_analyzer.py:112-113 | each row is the sum and the count of that strategy's profits |
| LogAnalyzer.AverageCostDiffersFromFifo | quantitative_desk/log_analyzer.py:45-76 | buys 10@100 and 5@110 and a sell 12@120 realize 200 and leave 3 units carrying 310; FIFO gives 220 on the same trades |

## Left out

- I/O and plumbing are not modelled:
  - `DataLoader` and the yfinance download;
  - the broker classes;
  - `Alerter`, which only logs: alerts are kept as values;
  - logging itself;
  - the JSON ledger and trade-log files, kept as values in the state;
  - `parse_trade_log`, which depends on regular expressions and number formatting;
  - the dashboard GUI, `main.py` and the market-hours clock.
- Floating-point statistics are inputs, not computed:
  - rolling means;
  - standard deviations and the `sqrt(252)` annualisation;
  - `np.gradient`- and pandas_ta-based RSI;
  - the exponentially weighted ATR.
- Alpha and beta of `calculate_metrics` (covariance against a benchmark) are not
  modelled: they only add output columns.
- NaN, and returns at or below -100%: `calculate_metrics` requires every return above
  -100%. pandas would otherwise produce NaN or infinities.
- `random.sample` in the optimizer is an input: any list of distinct indices of the
  configured length.
- `ReportGenerator.generate` (logging and plotting) is not modelled.
- The text layout of the performance report and of the per-strategy table is not
  modelled. Only the numbers are.
- The drawdown-breach state machine is not modelled: the source never sets the flag.
- The in-place mutation of the buy records by `calculate_round_trip_pnl` is not modelled.
  Open lots are values.
- A tick whose price is None but whose history is present would raise in the source.
  A tick in the model always carries a price, and a missing tick or history is `None`
  or empty.
- `LiveStrategies.MapSum` sums a map's values in an arbitrary key order, as `sum` over a
  dictionary does. It is ghost, so the live equity functions (`LiveStrategies.Equity`,
  `Citadel.TotalEquity`, `Citadel.NewCio`) are ghost too.
- Backtest.Run: states the length of the equity curve, its last point, the trade log as
  the replay's log and the empty case; the intermediate curve points are not stated one
  by one (each is the firm's equity after its cycle, by definition of `Backtest.RunFrom`).
- Optimizer.RunOptimizer: states what each row carries, not that the sampled trials are
  pairwise distinct combinations. That follows from the distinct indices the sample
  provides. The backtest behind each trial is a `Backtester` parameter, not
  `Backtest.Run` followed by `Performance.CalculateMetrics`, so the rows' metrics are only
  stated to be whatever that parameter returns.
- Citadel.OnMarketData: states the invariants of a whole round (prices, ids, solvency,
  count and log), not which fills the round produces. It is the price update followed by
  `Citadel.StrategyStep` for every tick and every strategy in order; what one step does
  (exits first, then the signal through `Citadel.Act` and `Citadel.Enter`) is stated by
  those members, and the price update by `Citadel.UpdatePricesSets`.
- Citadel.NewCio: the saved ledger is the initial ledger value; the file read and its
  error path are not modelled.
