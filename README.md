# A verified model of the strategy backtest engine

This project models the core of a small web application that backtests rule-based trading
strategies. It has three parts:

- **Validator.** A strategy is a JSON document. The validator checks its shape and then three
  further conditions: the window is ordered, every indicator referenced is declared, and the
  window is long enough for every indicator's warm-up (`lib/validate.ts`).
- **Engine** (`lib/sim.ts`, `lib/indicators.ts`). It generates a deterministic synthetic price
  history for each symbol. It computes the SMA, EMA, RSI, ROC and ATR indicators over that
  history. It then runs a daily, long-only simulation twice: over the first 70% of the business
  days (train) and over the rest (validate). The result holds the equity curves, the metrics and
  the per-asset totals of both runs.
- **Editor helpers.** The strategy editor converts a rule expression into editable rows and back,
  and tokenises the universe field (`app/components/StrategyBuilder.tsx`). The summary view
  describes a rule in English (`app/components/StrategySummary.tsx`).

The model has one Dafny module per concern:

| module | what it holds |
|---|---|
| `Numeric` | Numbers; `Num = Option<real>` is a JavaScript number that may not be finite. Sums, sliding windows, and `Scale(n, x)` for `n * x` as a repeated sum. |
| `Types` | The strategy, candle and result records. |
| `Host` | What the JavaScript runtime supplies, passed in as function values. |
| `Text` | `String.prototype.split`, `trim`, `toUpperCase`, `join`, `toString` and UTF-16 code units. |
| `Random` | `hashString`, and the `mulberry32` generator as a class with a mutable seed. |
| `Candles` | `generateCandles`. |
| `Indicators` | The five indicators and the warm-up table. |
| `Evaluator` | `resolveOperand` and `evalExpr`. |
| `Metrics` | `computeMetrics` and `finalizeMetrics`. |
| `Positions` | The insertion-ordered position `Map`. |
| `Order` | The stable sort of pending buys. |
| `Trading` | The closing, buying and rebalancing passes of one session. |
| `Session` | One session of `simulate`, and `shouldRebalance`. |
| `Simulator` | `simulate`. |
| `Backtest` | `computeIndicators` and `runBacktest`. |
| `Validate` | The schema and `validateStrategy`. |
| `Builder` | The editor's conversions. |
| `Summary` | The rule descriptions. |

Each loop in the source becomes a Dafny `method` with a loop. Its `ensures` ties the result to a
specification function. The properties the code promises are proved about those functions as
lemmas.

Quirks of the source the model keeps:

- **RSI.** With zero losses over the window, the source takes the strength ratio as 100. The
  index is then `100 - 100 / 101`, not 100 (`Indicators.StrengthOf`).
- **SMA.** A non-finite input resets the running sum but not the window. A later window can
  therefore subtract a value it never added. `Indicators.SmaAfterGap` shows this on a concrete
  series.
- **Default period.** The warm-up check reads an omitted period as 1 (`lib/indicators.ts:109-113`).
  The computation reads it as 14 (`lib/sim.ts:202-205`). `Indicators.DefaultPeriodGap` shows a
  series that passes the check yet has no defined value.
- **Negative cash.** Closing a position credits `gross - commission - slippage`, which can be
  negative. So cash can go negative on closing. The model proves cash non-negative only across
  buys (`Trading.BuyAll`).
- **Rebalance target.** Rebalancing toward a negative target (negative equity) sells more shares
  than are held. `Trading.AdjustCost` is therefore stated for a non-negative target only.
- **Sizing switch.** The `switch` over sizing modes at `lib/sim.ts:459-472` lacks its closing
  brace. The model reads it as ending after line 472, so lines 473-498 are the buy path of every
  sizing mode.
- **Exposure range.** The merged per-asset exposure is divided by the number of validate sessions
  only, while it counts the sessions of both runs. It can therefore exceed 1 (`Backtest.Splits`).
- **Schema union.** The `boolExpr` schema union never rejects an expression. Its partial
  `risk_stop` option matches any object and strips every key it does not declare. So an
  unrecognised or malformed sub-expression parses to `{}`, and so does `{ risk_take: true }`
  (`Validate.Parsed`).

## Model

| member | source | states |
|---|---|---|
| Random.HashString | lib/sim.ts:11-18 | The loop over the input's UTF-16 code units computes `Hash` of those units. Each step xors in the unit, multiplies by 3432918353 modulo 2^32 and rotates left by 13, starting from 1779033703. |
| Random.Mulberry32.constructor | lib/sim.ts:20 | The generator starts from the given seed. |
| Random.Mulberry32.Next | lib/sim.ts:21-27 | Each draw advances the seed by 0x6d2b79f5 modulo 2^32. It returns the mixed output of the new seed as a fraction in [0, 1). |
| Candles.Shock | lib/sim.ts:54 | `(rand() - 0.5) * 2` lies in [-1, 1). |
| Candles.MakeCandleShape | lib/sim.ts:55-68 | From a price of at least 1 and a shock in [-1, 1], the candle's close is at least 1, its high bounds its open and close from above, and its low is positive and bounds them from below. |
| Candles.WalkShape | lib/sim.ts:51-70 | The random walk yields one well-shaped candle per business day, dated by it; each candle opens at the previous close, the first at the starting price. |
| Candles.GeneratedShape | lib/sim.ts:43-72 | Every generated history is such a walk over the business days of the window, from a starting price in [50, 100). |
| Candles.WalkDates | lib/sim.ts:49-71 | The loop that draws from the generator yields the walk over the generator's successive draws. |
| Candles.GenerateCandles | lib/sim.ts:43-72 | Seeds the generator with the hash of `symbol:start:end`, draws the starting price and walks the business days. |
| Indicators.MovingAverage | lib/indicators.ts:5-24 | One value per input. |
| Indicators.SMA | lib/indicators.ts:5-24 | The running-sum loop computes `MovingAverage`. |
| Indicators.SmaMean | lib/indicators.ts:5-24 | Over finite inputs, the value is undefined before index `period - 1` and is the mean of the last `period` inputs from then on. |
| Indicators.SmaSumWindow | lib/indicators.ts:9-21 | Over finite inputs, the running sum after `n` steps is the sum of the last `period` inputs. |
| Indicators.SmaAfterGap | lib/indicators.ts:11-17 | A non-finite input resets the sum but not the window: `[1, NaN, 1, 1]` with period 2 gives `[-, -, 0, -]`. |
| Indicators.Multiplier | lib/indicators.ts:29 | The EMA weight `2 / (period + 1)` lies in (0, 1]. |
| Indicators.ExponentialAverage | lib/indicators.ts:26-46 | A value at index `i` is defined exactly when the period is at least 1, `i >= period - 1` and the input at `i` is finite. |
| Indicators.EMA | lib/indicators.ts:26-46 | The loop computes `ExponentialAverage`. |
| Indicators.EmaBounded | lib/indicators.ts:26-46 | Every EMA value lies within any bounds that hold for all finite inputs. |
| Indicators.EmaFirst | lib/indicators.ts:35-37 | The first finite input seeds the average with itself. |
| Indicators.StrengthIndex | lib/indicators.ts:48-70 | One value per input; a value is defined only from index `period` on. |
| Indicators.RSI | lib/indicators.ts:48-70 | The loop with running gain and loss sums computes `StrengthIndex`. |
| Indicators.RsiStep | lib/indicators.ts:53-67 | One loop step advances the running sums as the specification does. |
| Indicators.RsiWindow | lib/indicators.ts:53-61 | Over finite inputs, the running gain and loss are the sums of the upward and downward moves over the last `period` steps. |
| Indicators.RsiFormula | lib/indicators.ts:48-70 | Over finite inputs, the RSI at `i >= period` is `StrengthOf(gains, losses)` of the window's moves, and is undefined before. |
| Indicators.StrengthOf | lib/indicators.ts:62-66 | `100 - 100 / (1 + rs)` lies in [0, 100). With zero losses the ratio `rs` is 100, so the index is `100 - 100 / 101`. |
| Indicators.RateOfChange | lib/indicators.ts:72-81 | A value at `i` is defined exactly when the period is at least 1, `i >= period`, both inputs are finite and the earlier one is not zero. |
| Indicators.ROC | lib/indicators.ts:72-81 | The loop computes `RateOfChange`. |
| Indicators.RocInverse | lib/indicators.ts:76-78 | A defined rate recovers the current value from the earlier one: `x[i] = x[i-p] * (1 + roc / 100)`. |
| Indicators.AverageTrueRange | lib/indicators.ts:83-98 | One value per candle. |
| Indicators.ATR | lib/indicators.ts:83-98 | The loop computes `AverageTrueRange`. |
| Indicators.PushTrueRanges | lib/indicators.ts:86-92 | The loop collects the true range of each candle. |
| Indicators.TrueRangeCovers | lib/indicators.ts:88-90 | The true range is the largest of high minus low and the two gaps to the previous close (the own close for the first candle). |
| Indicators.AtrMean | lib/indicators.ts:83-98 | The ATR is the simple average of the true ranges over the period. |
| Indicators.Apply | lib/indicators.ts:100-106 | Each indicator yields one value per candle. |
| Indicators.Compute | lib/indicators.ts:100-106 | Dispatches on the indicator name as `Apply` does. |
| Indicators.DefinedAfterWarmup | lib/indicators.ts:108-114 | Over positive closes, every indicator is defined at each index at or past its warm-up. |
| Indicators.DefaultPeriodGap | lib/sim.ts:196-205 | With the period omitted, an SMA over 6 to 13 candles passes the warm-up check yet is never defined. |
| Evaluator.Resolve | lib/sim.ts:114-123 | A number resolves to itself; a reference to an undeclared indicator resolves to nothing. |
| Evaluator.Previous | lib/sim.ts:148-179 | The previous session clamps at index 0. |
| Evaluator.NonFiniteIsFalse | lib/sim.ts:136-179 | A comparison or crossing with a non-finite side is false. |
| Evaluator.CrossingsExclusive | lib/sim.ts:148-179 | A crossing over and a crossing under never hold together, and neither holds on the first session. |
| Evaluator.CrossOverIsRise | lib/sim.ts:148-163 | A crossing over holds exactly when `left > right` now and, with both sides finite before, did not hold on the previous session. |
| Evaluator.EvalFrame | lib/sim.ts:125-187 | The value of a rule depends only on the indicators it references. |
| Metrics.Drawdown | lib/sim.ts:246-252 | The maximum drawdown is never positive. |
| Metrics.BaseMetrics | lib/sim.ts:213-265 | An empty curve gives all-zero metrics. Otherwise the drawdown is the curve's deepest fall and is never positive. A zero drawdown gives a zero Calmar ratio. The trade fields stay zero until finalised. |
| Metrics.ComputeMetrics | lib/sim.ts:213-265 | The loops compute `BaseMetrics`. |
| Metrics.DailyReturns | lib/sim.ts:227-235 | The loop computes the daily returns. |
| Metrics.MaxDrawdown | lib/sim.ts:246-252 | The loop computes the deepest fall from a running peak. |
| Metrics.PeakIsMaximum | lib/sim.ts:246-252 | The running peak is the largest value so far and is reached. |
| Metrics.DrawdownIsDeepestLoss | lib/sim.ts:246-252 | The drawdown is at most every relative fall from the peak and equals one of them unless zero. |
| Metrics.RisingHasNoDrawdown | lib/sim.ts:246-252 | A non-decreasing curve has no drawdown. |
| Metrics.DrawdownAtLeastTotalLoss | lib/sim.ts:246-252 | A non-negative curve never draws down by more than 100%. |
| Metrics.Gains | lib/sim.ts:274 | The winning trades' profits are all positive, and there is one exactly when some trade won. |
| Metrics.Losses | lib/sim.ts:275 | The losing trades' profits are all negative, and there is one exactly when some trade lost. |
| Metrics.WinsAndLossesDisjoint | lib/sim.ts:274-275 | No trade counts as both a win and a loss. |
| Metrics.HitRate | lib/sim.ts:276 | The hit rate lies in [0, 1] and is positive exactly when some trade won. |
| Metrics.AverageWin | lib/sim.ts:277 | The average win is non-negative and positive exactly when some trade won. |
| Metrics.AverageLoss | lib/sim.ts:278 | The average loss is non-positive and negative exactly when some trade lost. |
| Metrics.Exposure | lib/sim.ts:284 | The exposure is zero without sessions and lies in [0, 1] when the exposed days are within the sessions. |
| Metrics.Finalize | lib/sim.ts:267-287 | Keeps the curve metrics and sets the trade metrics, exposure and turnover. |
| Positions.Put | lib/sim.ts:484-496 | `Map.set` keeps the table well formed and maps the key to the value. A new key is appended to the key order and grows the size by one. An existing key keeps the order and the size. |
| Positions.Delete | lib/sim.ts:392 | `Map.delete` keeps the table well formed and removes the key, from the entries and from the key order (`Without`). The size shrinks only when the key was held. |
| Positions.WithoutSplit | lib/sim.ts:392 | Deleting a key held once leaves the keys before it followed by the keys after it, so the other positions keep their insertion order. |
| Positions.WithoutAbsent | lib/sim.ts:392 | Deleting a key that is not held leaves the key order as it was. |
| Positions.SizeSubset | lib/sim.ts:442 | A table whose keys are among another's is no larger. |
| Positions.HoldingsPut | lib/sim.ts:449-452 | Replacing a position changes the market value by the difference of the two positions' values. |
| Positions.HoldingsDelete | lib/sim.ts:547-550 | Removing a position takes its value out of the market value. |
| Order.SortBySorted | lib/sim.ts:438 | The sort of pending buys by symbol yields an ordered permutation of them. |
| Order.SortByStable | lib/sim.ts:438 | Buys with the same symbol keep their order. |
| Order.LeTotal | lib/sim.ts:438 | Any two symbols are ordered one way or the other. |
| Order.LeTransitive | lib/sim.ts:438 | The symbol order is transitive. |
| Trading.CostPerShare | lib/sim.ts:474 | The price with slippage is positive. |
| Trading.Tally | lib/sim.ts:394-397 | The symbol's per-asset counters gain the trade and its profit; all other counters stay as they were. |
| Trading.Close | lib/sim.ts:382-399 | Closing removes exactly the symbol from the positions and keeps the book well formed. |
| Trading.CloseAccounts | lib/sim.ts:382-399 | Closing a held symbol removes the whole position. It adds the proceeds after commission and slippage to cash and logs one trade whose profit is the proceeds less the cost basis. Every other position is unchanged. Closing an unheld symbol changes nothing. |
| Trading.CloseCost | lib/sim.ts:386-391 | Closing lowers equity by exactly the commission and the slippage. |
| Trading.LiquidateHeld | lib/sim.ts:382-399 | After the closing pass exactly the positions not listed remain, each unchanged. |
| Trading.ApplyClosings | lib/sim.ts:382-399 | The loop over the closing set computes the closing pass. |
| Trading.Budget | lib/sim.ts:458-472 | Equal weight spends `max(0, cap - current value)`. Fixed percentage spends `cash * pct`, with `pct` 0.1 when it is omitted. All-in spends all the cash. |
| Trading.BudgetWithin | lib/sim.ts:453-472 | An equal-weight buy tops the position up to the cap exactly, and spends nothing once the position is over the cap. With non-negative cash and `pct` in [0, 1] (the schema's bound), the other modes spend between 0 and the cash. |
| Trading.Decide | lib/sim.ts:440-478 | A buy is refused for the cap exactly when the symbol is in the universe, not held and the table is full. A fill buys a positive number of shares at the slipped price plus commission, within cash. |
| Trading.Bought | lib/sim.ts:479-497 | A top-up adds shares and cost and keeps the entry date. A new position records the buy. Either way the entry price is the cost basis per share. |
| Trading.Buy | lib/sim.ts:440-498 | A buy adds at most one position, and only below the cap. Cash either stays the same or stays non-negative. The trade log is untouched. |
| Trading.BuyCost | lib/sim.ts:474-480 | A filled buy lowers equity by exactly the commission and the slippage on the shares. |
| Trading.BuyCapped | lib/sim.ts:442-445 | A capped buy only appends the "Max positions reached" warning. |
| Trading.BuyAll | lib/sim.ts:440-499 | The buy pass never exceeds the position cap, keeps every held symbol and never makes cash negative. |
| Trading.ExecuteBuys | lib/sim.ts:440-499 | The loop over pending buys computes the buy pass. |
| Trading.Adjust | lib/sim.ts:510-544 | A rebalance step keeps the book well formed and adds no symbol; a top-up leaves cash non-negative. |
| Trading.AdjustCost | lib/sim.ts:510-544 | With a non-negative target, a rebalance step never raises equity. |
| Trading.AdjustSold | lib/sim.ts:526-542 | A sell-down credits the proceeds and keeps the entry price. It removes the position when no share is left. |
| Trading.Rebalance | lib/sim.ts:501-545 | Rebalancing adds no symbol, and changes nothing when not requested or when nothing is held. |
| Trading.RebalancePositions | lib/sim.ts:501-545 | The loop over held positions computes the rebalancing pass. |
| Session.ShouldRebalance | lib/sim.ts:289-311 | Never with no schedule. Weekly on every fifth session. On the first session, only with the weekly schedule. |
| Session.QuarterlyWithinYear | lib/sim.ts:294-307 | Within one year, a quarter change is also a month change. |
| Session.WeeklyOncePerFive | lib/sim.ts:292-293 | Any five consecutive sessions hold exactly one weekly rebalance. |
| Session.Prices | lib/sim.ts:334-337 | The day's price of each universe symbol is its close. |
| Session.Flagged | lib/sim.ts:340-357 | A symbol is flagged exactly when it is held, priced and its stop-loss or take-profit threshold is crossed. |
| Session.AddAll | lib/sim.ts:359-361 | Adding to a set adds exactly the given symbols and keeps it duplicate-free. |
| Session.ScanExits | lib/sim.ts:364-379 | A symbol is added exactly when some exit rule fires for it and its ticker is `*` or the symbol itself. |
| Session.Closings | lib/sim.ts:359-379 | The closing set has no duplicates. |
| Session.ClosingsMembers | lib/sim.ts:359-379 | A symbol is closed exactly when its stop or take is hit or some exit rule fires for it. |
| Session.ScanEntries | lib/sim.ts:405-427 | A rebalance is requested exactly when some entry rule with a rebalance outcome fires for some symbol. |
| Session.Target | lib/sim.ts:415 | The `*` ticker stands for the current symbol. |
| Session.ClosingPass | lib/sim.ts:340-399 | After the closing pass a position remains exactly when its stop and take were not hit and no exit rule fired for it. |
| Session.EntryCloseInert | lib/sim.ts:418-421 | The close outcome of an entry rule has no effect: the session is the same without it. |
| Session.Traded | lib/sim.ts:340-545 | One session's trading keeps every position a universe symbol with a positive share count. |
| Session.TradedKeepsCap | lib/sim.ts:440-545 | One session's trading keeps the number of positions within the cap. |
| Session.ExposeCounts | lib/sim.ts:555-559 | Each held symbol's exposure count grows by one and every other count stays the same. |
| Session.Day | lib/sim.ts:333-562 | A session appends one equity value and its date, and counts one exposed day exactly when a position is held. |
| Session.DayValue | lib/sim.ts:547-561 | The value appended is cash plus the market value of the positions. |
| Session.DayExposure | lib/sim.ts:552-559 | After a session, each symbol's exposure count has grown by one exactly when it is held. |
| Simulator.Opening | lib/sim.ts:322-330 | A simulation starts with no position, no curve and no counters. |
| Simulator.Played | lib/sim.ts:332-563 | After `k` sessions the curve has `k` values dated by the first symbol's candles. Exposure is within `k`. |
| Simulator.PlayedKeepsCap | lib/sim.ts:332-563 | The number of positions never exceeds the cap. |
| Simulator.Simulation | lib/sim.ts:313-580 | The curve has one value per session, dated by the first symbol's candles. Exposure and hit rate lie in [0, 1]. The drawdown is never positive. No symbol is exposed for more days than there are sessions. An empty range gives an empty result. |
| Simulator.Report | lib/sim.ts:565-579 | The output carries the curve, the per-asset counters and the warnings, with exposure and hit rate in [0, 1]. |
| Simulator.SimulationKeepsCap | lib/sim.ts:313-580 | At every session the number of positions is within the cap. |
| Simulator.Simulate | lib/sim.ts:313-580 | The session loop computes `Simulation`. |
| Simulator.DayStep | lib/sim.ts:333-562 | One iteration of the session loop computes `Day`. |
| Simulator.RiskFlags | lib/sim.ts:340-357 | The loop over positions computes the stop and take sets. |
| Simulator.ScanExitRules | lib/sim.ts:364-379 | The loop over the universe and the exit rules computes the exit closings. |
| Simulator.ExitRulesFor | lib/sim.ts:366-378 | The loop over the exit rules for one symbol adds the symbol once some rule's condition holds and its target is `*` or the symbol. |
| Simulator.ScanEntryRules | lib/sim.ts:405-427 | The loop over the universe and the entry rules computes the pending buys and the rebalance request. |
| Simulator.ExposeHeld | lib/sim.ts:555-559 | The loop computes the exposure counters. |
| Backtest.IndicatorSeries | lib/sim.ts:189-211 | A symbol's record holds one series per declared id, each as long as the candles. |
| Backtest.IndicatorSeriesOk | lib/sim.ts:196-200 | The record is computed exactly when the candles cover every definition's warm-up plus 5. |
| Backtest.IndicatorSeriesFirstErr | lib/sim.ts:198-200 | Otherwise the error names the first such definition and the symbol. |
| Backtest.IndicatorSeriesLastWins | lib/sim.ts:206 | A later definition with the same id replaces an earlier one. |
| Backtest.SeriesMap | lib/sim.ts:189-211 | The series map has exactly the universe's symbols, each computed from its candles. |
| Backtest.SeriesMapFirstErr | lib/sim.ts:190-210 | The first symbol whose record fails decides the error. |
| Backtest.ComputeIndicators | lib/sim.ts:189-211 | The nested loops compute `SeriesMap`. |
| Backtest.GenerateAll | lib/sim.ts:583-586 | The loop generates the candles of every symbol. |
| Backtest.GeneratedReady | lib/sim.ts:583-588 | Every symbol's series covers the window's business days with closes of at least 1. |
| Backtest.Split | lib/sim.ts:589 | The train part is shorter than the whole and non-empty from two sessions on. |
| Backtest.SplitIsSevenTenths | lib/sim.ts:589 | The split is the exact `floor(7 * length / 10)`. The double-precision product `length * 0.7` is not modelled (see Left out). |
| Backtest.MergedTotals | lib/sim.ts:597-608 | Each symbol's merged counters are the sums of its train and validate counters, an absent side counting zero. |
| Backtest.MergeStats | lib/sim.ts:597-608 | The merging loops compute `Merged`. |
| Backtest.MergedExposure | lib/sim.ts:597-608 | Merged exposure is within the sessions of both runs. |
| Backtest.PerAssetShares | lib/sim.ts:610-615 | Each reported symbol carries its own name, and its exposure lies between 0 and the merged exposure bound over the validate sessions. |
| Backtest.CombineRuns | lib/sim.ts:597-630 | Builds the result of the two runs. Each run keeps its own metrics and curve. The per-asset statistics are the merged ones, keyed by symbol, with exposure over the validate sessions. The train warnings come before the validate warnings. |
| Backtest.BacktestOk | lib/sim.ts:582-631 | The backtest succeeds exactly when the universe and the calendar are non-empty and the calendar covers every definition's warm-up plus 5. |
| Backtest.BacktestWarmupError | lib/sim.ts:198-200 | A calendar too short for a definition fails with the warm-up message for the first such definition and the first symbol. |
| Backtest.BacktestSplitsSessions | lib/sim.ts:588-615 | A successful backtest splits the business days between the two curves, dated in order without overlap, and bounds each symbol's exposure. |
| Backtest.RunBacktest | lib/sim.ts:582-631 | The procedure computes `Backtest`. |
| Validate.Parsed | lib/validate.ts:17-28 | Parsing any expression yields one the schema's union accepts. |
| Validate.ParsedFixes | lib/validate.ts:17-28 | An expression already in the accepted shape parses to itself. |
| Validate.CollectMembers | lib/validate.ts:114-132 | Collecting adds exactly the `@` operands of the comparisons in the expression. |
| Validate.CollectExtends | lib/validate.ts:114-132 | Collecting only appends, and keeps the bucket duplicate-free. |
| Validate.Bucket.constructor | lib/validate.ts:149 | A new bucket is empty. |
| Validate.Bucket.Add | lib/validate.ts:126 | `Set.add` appends a symbol not yet present and otherwise changes nothing. |
| Validate.CollectOperands | lib/validate.ts:114-132 | The recursive walk leaves the bucket as `Collect` says. |
| Validate.Check | lib/validate.ts:41-112 | A check reports an issue exactly when its condition fails. |
| Validate.DuplicateIssuesNone | lib/validate.ts:66-85 | No duplicate-id issue is reported exactly when the ids are distinct. |
| Validate.DuplicateReported | lib/validate.ts:68-74 | Every repeated id is reported. |
| Validate.CheckDuplicates | lib/validate.ts:66-85 | The loop with the `seen` set computes the duplicate issues. |
| Validate.Issues | lib/validate.ts:41-112 | The schema reports no issue exactly when the strategy is well formed. |
| Validate.FirstUndeclared | lib/validate.ts:152-156 | The first reference not declared is found, and there is none exactly when all are declared. |
| Validate.MaxWarmup | lib/validate.ts:158-161 | The maximum warm-up is non-negative, bounds every definition's and is reached by one of them unless zero. |
| Validate.LengthCheck | lib/validate.ts:162-169 | The window passes exactly when it spans at least the maximum warm-up plus 252 days. |
| Validate.ValidateStrategy | lib/validate.ts:134-171 | The procedure computes `Validation`. |
| Validate.CheckOrdered | lib/validate.ts:143-170 | The checks after the schema compute `OrderedChecks`: window order, then the first undeclared reference, then the window length, stopping at the first failure. |
| Validate.CollectReferences | lib/validate.ts:149-151 | Walking the entries' rules and then the exits' into a fresh set yields `Referenced`, the `@` operands in first-seen order. |
| Validate.DeclaredIff | lib/validate.ts:148-156 | The reference check passes exactly when every `@` operand of every rule is declared. |
| Validate.ValidationAccepted | lib/validate.ts:134-171 | A typed strategy (integer version and position cap, finite numbers) is accepted exactly when it is well formed, its window is ordered, its references are declared and its window is long enough. A fractional version or cap is not modelled (see Left out). |
| Validate.IssueRejected | lib/validate.ts:135-141 | Every schema issue shows up, formatted as `path: message`, among the errors. The schema's own messages are exact; a built-in zod check's message is "Invalid input" (see Left out). |
| Validate.DuplicateRejected | lib/validate.ts:66-85 | A repeated indicator id rejects the strategy with the duplicate message. |
| Validate.NoOutcomeRejected | lib/validate.ts:95-97 | An entry rule with no outcome is rejected with its path and message. |
| Validate.NoCloseRejected | lib/validate.ts:107-109 | An exit rule without a close is rejected with its path and message. |
| Validate.WindowRejected | lib/validate.ts:143-147 | An unordered window gives only the window error. |
| Validate.UndeclaredRejected | lib/validate.ts:148-156 | An undeclared reference gives only an undefined-indicator error. |
| Validate.ShortWindowRejected | lib/validate.ts:157-169 | A short window gives only the length error with the required number of days. |
| Builder.FormatOperand | app/components/StrategyBuilder.tsx:74-77 | A reference shows as its name and a number as its spelling. |
| Builder.ConvertRow | app/components/StrategyBuilder.tsx:42-72 | Each leaf becomes a row of its own kind with its operands shown. Risk rows carry no operands. Anything else becomes the row `@close > 0`. |
| Builder.ToConditionGroup | app/components/StrategyBuilder.tsx:23-40 | An `all` or `any` becomes one row per child, numbered from "0". Any other expression becomes a single-row `all` group. |
| Builder.ParseOperand | app/components/StrategyBuilder.tsx:79-84 | A value starting with "@" is a reference. An absent or empty value is 0. Anything else is its number, or 0 when it is not finite. |
| Builder.RowExpr | app/components/StrategyBuilder.tsx:87-102 | Each row becomes the leaf of its kind with its operands parsed. |
| Builder.ToBoolExpr | app/components/StrategyBuilder.tsx:86-107 | A group becomes an `all` or `any` of its rows' leaves, in order. |
| Builder.RowRoundTrip | app/components/StrategyBuilder.tsx:42-107 | A row read back keeps its kind, and its operands when they are in canonical spelling. |
| Builder.GroupRoundTrip | app/components/StrategyBuilder.tsx:23-107 | A group read back keeps its mode, its length and its kinds, with ids renumbered. |
| Builder.TreeRoundTrip | app/components/StrategyBuilder.tsx:23-107 | A flat `all`/`any` of editable leaves is given back unchanged. |
| Builder.LeafWrapped | app/components/StrategyBuilder.tsx:36-39 | A top-level leaf comes back wrapped in a one-child `all`. |
| Builder.NestedReplaced | app/components/StrategyBuilder.tsx:71 | A nested group becomes `@close > 0`. |
| Builder.UniverseNormal | app/components/StrategyBuilder.tsx:119-122 | Every symbol the universe field yields is non-empty, trimmed, ASCII upper-case and comma-free. |
| Builder.UniverseRoundTrip | app/components/StrategyBuilder.tsx:119-122 | Tokenising the universe joined with ", " gives it back, when its symbols are in that normal form (ASCII upper-case). |
| Text.SplitJoin | app/components/StrategyBuilder.tsx:120 | Joining the pieces of a split with the separator restores the text. |
| Text.Trim | app/components/StrategyBuilder.tsx:121 | `trim` leaves no leading or trailing white space. |
| Text.ToUpper | app/components/StrategyBuilder.tsx:121 | ASCII upper-case: each letter a-z becomes upper case and every other character is kept. |
| Text.NatToStringRoundTrip | app/components/StrategyBuilder.tsx:27 | The decimal spelling of a row index reads back as that index. |
| Summary.DescribeOperand | app/components/StrategySummary.tsx:36-40 | A number shows as its spelling. A reference loses its leading "@". Anything else shows as is. |
| Summary.Describes | app/components/StrategySummary.tsx:10-13 | The children are described one by one, in order. |
| Summary.AllCons | app/components/StrategySummary.tsx:9-11 | An `all` joins its children's sentences with " AND ". |
| Summary.AnyCons | app/components/StrategySummary.tsx:12-14 | An `any` joins its children's sentences with " OR ". |
| Summary.GroupOfOne | app/components/StrategySummary.tsx:9-14 | A group of one reads as its child; an empty group reads as nothing. |
| Summary.ComparedNames | app/components/StrategySummary.tsx:15-26 | Two compared indicators read as their names without "@". |
| Summary.Round | app/components/StrategySummary.tsx:48 | `Math.round` gives the nearest integer, halves rounded up. |
| Summary.PercentBounds | app/components/StrategySummary.tsx:48 | A fraction in [0, 1] shows as a percentage in [0, 100]. |
| Summary.PercentExact | app/components/StrategySummary.tsx:48 | A whole percentage shows exactly, and an absent one as "0% of cash". |

## Left out

- **Floating point.** Arithmetic is exact over the reals. The source's rounding is not modelled.
  NaN and both infinities are merged into one "not finite" value.
- **Host functions.** `Math.exp`, `Math.pow` and `Math.sqrt`, the local-time calendar
  (`businessDaysBetween`, `getMonth`, `getFullYear`), `Date.parse`, `Number()` and number
  `toString` are functions of a `Host.Runtime` value. Every property holds for any runtime.
- **Symbol order.** `localeCompare` is taken as the lexicographic order of Unicode code points (Dafny characters); locale collation is not modelled.
- **Indicator arguments.** Only the `period` argument is modelled, as an integer. Other keys and
  fractional periods are left out.
- **Schema.** The zod schema is modelled by its accept/reject predicate and its issue list. The
  exact order of zod's issues within one object is not modelled.
- **User interface.** The React components and their state, the API route, the page and layout,
  `ResultsView.tsx` and `Presets.tsx` are not part of this model.
- **Thrown errors.** Exceptions become `Err` values carrying the message. Reading past the end of
  the candles is excluded by the simulator's precondition, which `runBacktest` guarantees
  (`Backtest.GeneratedReady`).
- Trading.AdjustCost: stated only for a non-negative rebalance target. With negative equity the
  source sells more shares than are held.
- Text.ToUpper: upper-cases ASCII letters only. JavaScript's `toUpperCase` follows full Unicode
  case mapping (`é` becomes `É`, `ß` becomes `SS`), which is not modelled.
- Builder.UniverseNormal: the symbols are upper-case in the ASCII sense of `Text.ToUpper` only.
- Builder.UniverseRoundTrip: the normal form is ASCII upper-case, as for `Text.ToUpper`.
- Backtest.Split: the split is the exact floor of 70% of the sessions. The source computes
  `Math.floor(length * 0.7)` in double precision, where the product can fall just below a whole
  number: `90 * 0.7` is `62.99999999999999`, so 62 train sessions where the model has 63.
- Backtest.SplitIsSevenTenths: states the exact `floor(7 * length / 10)`, not the double-precision
  floor of the source (see `Backtest.Split`).
- Backtest.CombineRuns: the per-asset statistics are a map from symbol to statistics. The order
  of the source's `perAsset` array is not modelled. That order is the `Object.entries` order of the
  merged record: integer-like keys first, then the train run's symbols, then the validate run's
  new ones. The same holds for `Backtest.Combine` and `Backtest.PerAsset`.
- Validate.Issues: the schema is modelled over the typed strategy. Whole-number fields are Dafny
  integers, numbers are exact reals, and the enumerations and literals are closed types. So the
  `.int()` rejection of a fractional `meta.version` or `risk.max_positions` (for example
  `max_positions: 2.5`, lib/validate.ts:44, 62) is not modelled. Nor are the `.finite()`,
  `enum`, `literal` and type checks, which no typed value can fail. The message of an issue raised
  by one of the remaining built-in checks (`min`, `max`, `positive`) is the one string
  "Invalid input". The wording of those messages depends on the zod version,
  which is not part of this model. For example, the universe `[""]` gives
  `universe.0: Invalid input`, where zod 3 writes
  `universe.0: String must contain at least 1 character(s)`. The messages the schema writes
  itself (dates, indicator ids, duplicate ids, entry and exit actions) are exact.
- Validate.ValidationAccepted: the equivalence holds over the typed strategy, whose
  `meta.version` and `risk.max_positions` are integers. The source's `.int()` rejection of a
  fractional value of either (lib/validate.ts:44, 62) is not modelled, and neither are
  non-finite numbers (see `Validate.Issues`).
- Validate.IssueRejected: the line it promises for a built-in check's issue carries
  "Invalid input" in place of zod's wording (see `Validate.Issues`).
- Trading.Buy: promises cash non-negative after a fill only. The closing pass may leave cash
  negative, as the source does.
