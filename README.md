# Upbit single-position trading bot — decision logic in Dafny

This project models the decision logic of a spot-trading bot for the Upbit exchange. The bot
works in cycles. Each cycle lists the KRW markets and runs a selection pass that picks the first
market passing a fixed chain of indicator filters. It buys that market with its whole capital
(the `seed`). It then polls the price until a take-profit or stop-loss threshold fires, sells,
writes a spreadsheet row, and sets the seed to the rounded-down sale value.

Modules, one per source file:

- `Util` (`util.js`): the 0.05% fee and `adjustForFee`.
- `Volume` (`calculate-volume.js`): the 24-hour traded-value gate.
- `Ema` (`calculate-ema.js`): the EMA recurrence, as a loop proved against a recursive series
  function, and the trend filter.
- `StochasticRsi` (`calculate-stochastic-rsi.js`): the decision rule on the newest `{k, d}` pair.
  The `technicalindicators` library is a function parameter.
- `HeikinAshi` (`calculate-heikinashi.js`): the sequential synthetic-candle builder, the in-place
  reversal of the caller's array, and the three-candle pattern.
- `Monitor` (`bitcoin-monitor.js`): the `KRW-` filter, the selection pass, the fill-volume sum,
  the monitor loop, and one cycle of `main`. The module-level `seed` and `spreadAppendData` are
  fields of the class `TradingBot`.

Helper modules: `Wrappers` (an `Option` type), `Sequences` (reversal, as a copy and in place)
and `Upbit` (the response fields the logic reads).

Every network read is an input to the model:

- the market listing, or its failure;
- one probe per market: ticker and candles, or an exception after the retries;
- the buy reply;
- the order lookup;
- a finite sequence of price ticks, each a reply with its time or an exception.

Prices are `real`.

Three behaviours of the code worth knowing:

- With fewer candles than the period, `calculateEMA` returns a single value: the sum of the
  closes divided by the full period (`Ema.ShortHistoryDilutesSeed`).
- In `filterMarket` a read that throws after its retries ends the whole pass, because there is
  no `try` around it. An empty stochastic-RSI result throws in the same way
  (`Monitor.ThrewIffReadFailedOrNoLatest`, `Monitor.ThrowAbortsPass`).
- The EMA trend stage is commented out in the selector, so `Monitor.Evaluate` does not apply
  it. `Ema.FilterEma` is modelled on its own.

## Model

| member | source | states |
|---|---|---|
| `Util.CalculateFee` | util.js:20-23 | the fee on a positive amount is positive and smaller than the amount; a zero amount pays no fee |
| `Util.AdjustForFee` | util.js:26-29 | a buy scales the amount by 1.0005, a sell or valuation by 0.9995 |
| `Util.DefaultIsBuy` | util.js:26 | called without `isBuy`, the adjustment is the buy adjustment |
| `Util.BuyAndSellShareOneFee` | util.js:20-29 | buy and sell add and subtract the same `calculateFee(a) = a·0.0005`; the buy/sell spread is twice the fee |
| `Util.AdjustBrackets` | util.js:26-29 | for `a >= 0`, sell value ≤ a ≤ buy cost, with equality only at 0 |
| `Util.BuyThenSellLoses` | util.js:20-29 | buying then selling gives `a·(1 − 0.0005²)`, strictly less than a positive `a` |
| `Util.AdjustStrictlyIncreasing` | util.js:26-29 | both adjustments are strictly increasing in the amount |
| `Volume.FilterVolume` | calculate-volume.js:2-9 | a 24h traded value exactly at the threshold passes; one below it is rejected |
| `Volume.VolumeThreshold` | calculate-volume.js:2-9 | the gate passes iff the first ticker's 24h traded value reaches the threshold; equality passes |
| `Volume.OnlyFirstTickerMatters` | calculate-volume.js:3-4 | tickers after the first never change the verdict |
| `Volume.AntitoneInThreshold` | calculate-volume.js:5 | raising the threshold can only turn a pass into a rejection |
| `Sequences.Reverse` | calculate-ema.js:18 | reversal maps index `i` to `n-1-i` and keeps the length |
| `Sequences.ReverseInPlace` | calculate-heikinashi.js:31 | `candles.reverse()` leaves the array holding the reversal of its old contents |
| `Upbit.ChronologicalCloses` | calculate-ema.js:4 | the closes are taken from `trade_price` and put oldest first on a fresh sequence |
| `Ema.Multiplier` | calculate-ema.js:5 | the smoothing factor `2/(period+1)` lies in (0, 1] |
| `Ema.EmaSeries` | calculate-ema.js:7-15 | the series has `1 + max(0, n − period)` values, never empty, and starts with the seed |
| `Ema.CalculateEma` | calculate-ema.js:2-19 | the loop yields the series of the oldest-first closes, reversed to newest first |
| `Ema.EmaRecurrence` | calculate-ema.js:12-15 | each later value is `(close − prev)·2/(period+1) + prev` on the matching close |
| `Ema.NewestFirst` | calculate-ema.js:9-18 | in the output the last element is the seed and element 0 the step on the newest close |
| `Ema.SeedWithin` | calculate-ema.js:8 | with at least `period` closes the seed lies within their range |
| `Ema.StepWithin` | calculate-ema.js:5-13 | one recurrence step stays between the close and the previous value's bounds |
| `Ema.EmaWithinCloseRange` | calculate-ema.js:5-15 | when `n >= period >= 1` every EMA value lies between the smallest and largest close |
| `Ema.ShortHistoryDilutesSeed` | calculate-ema.js:8 | with fewer closes than the period the seed is still divided by `period`, so it falls below a flat positive price |
| `Ema.FilterEma` | calculate-ema.js:22-42 | false on empty data, otherwise newest low ≥ newest EMA; `proximityThreshold` has no effect |
| `StochasticRsi.FilterStochasticRsi` | calculate-stochastic-rsi.js:17-32 | an empty library result is the thrown error; otherwise true iff the newest `k < 20` and `k > d` |
| `StochasticRsi.CalculateStochasticRsi` | calculate-stochastic-rsi.js:3-15 | carries no ensures of its own: its body applies the library to `Upbit.ChronologicalCloses` of the data (oldest first, by that function's contract), with periods 14, 14, 3, 3 unless the caller gives others, and returns the result as is |
| `StochasticRsi.OnlyLatestMatters` | calculate-stochastic-rsi.js:21 | runs whose newest `{k, d}` agree give the same verdict |
| `StochasticRsi.RejectsWithoutCrossOrWhenHigh` | calculate-stochastic-rsi.js:27 | `k == d` or `k >= 20` rejects |
| `HeikinAshi.NextHa` | calculate-heikinashi.js:5-23 | `haClose` is the mean of the four prices; `haHigh` is the largest of the raw high, `haOpen` and `haClose`, and `haLow` the smallest of the raw low, `haOpen` and `haClose`, so the candle is well formed |
| `HeikinAshi.Build` | calculate-heikinashi.js:1-27 | one synthetic candle per input candle, in input order, each well formed (non-negative wicks) |
| `HeikinAshi.BuildAt` | calculate-heikinashi.js:6-24 | the synthetic candle at each index is built from that raw candle and the synthetic candle before it |
| `HeikinAshi.CalculateHeikinAshi` | calculate-heikinashi.js:1-27 | the push loop builds exactly the sequential synthetic candles |
| `HeikinAshi.FirstOpen` | calculate-heikinashi.js:11-13 | the first candle opens at `(open+close)/2` |
| `HeikinAshi.LaterOpen` | calculate-heikinashi.js:11-13 | a later candle opens at the mean of the previous synthetic open and close, a previous 0 falling back to the raw open/close |
| `HeikinAshi.PositiveSynthetic` | calculate-heikinashi.js:10-13 | with positive prices every synthetic open and close is positive |
| `HeikinAshi.NoFallbackForPositivePrices` | calculate-heikinashi.js:11-13 | with positive prices the `\|\|` fallback never fires |
| `HeikinAshi.FilterHeikinAshi` | calculate-heikinashi.js:30-67 | the caller's array ends reversed; the verdict is the three-candle pattern on the oldest-first candles; fewer than 3 candles is false |
| `HeikinAshi.IsIndecision` | calculate-heikinashi.js:42-49 | a candle that passes the thin-body, long-wicks test has a high strictly above its low |
| `HeikinAshi.IsStrong` | calculate-heikinashi.js:51-57 | with `haLow <= haHigh`, passing the large-body, short-lower-wick test implies `haClose > haOpen` |
| `HeikinAshi.IsStrongBullish` | calculate-heikinashi.js:59-64 | the candle is bullish, and when its low is not above its open the body is more than 10/11 of the close-to-low distance |
| `HeikinAshi.PatternHolds` | calculate-heikinashi.js:33-66 | the pattern needs at least three candles; the oldest of the three has a positive range and the newest is bullish |
| `HeikinAshi.StrongImpliesBullish` | calculate-heikinashi.js:51-57 | the middle-candle test implies `haClose > haOpen` although its bullish check is commented out |
| `HeikinAshi.ShortLowerWickImpliesBullish` | calculate-heikinashi.js:59-64 | the newest candle's wick test alone implies it is bullish |
| `HeikinAshi.PatternCandlesAreBullish` | calculate-heikinashi.js:42-66 | when the pattern holds, the middle and newest candles are both bullish |
| `Monitor.KrwCodes` | bitcoin-monitor.js:125 | keeps exactly the listed codes starting with `KRW-` |
| `Monitor.KrwCodesConcat` | bitcoin-monitor.js:125 | the filter keeps listing order (distributes over concatenation) |
| `Monitor.GetAllMarkets` | bitcoin-monitor.js:121-130 | a failed request gives `[]`; a listing gives exactly its `KRW-` codes in listing order |
| `Monitor.Evaluate` | bitcoin-monitor.js:137-169 | a market's evaluation throws only when a read failed or the stochastic-RSI result is empty |
| `Monitor.AcceptedIffEveryStagePasses` | bitcoin-monitor.js:139-169 | a market is accepted exactly when it has data, its 24h value reaches 3,000,000,000, the stochastic-RSI test passes and the Heikin-Ashi pattern holds; an accepted market has at least three candles |
| `Monitor.ThrewIffReadFailedOrNoLatest` | bitcoin-monitor.js:137-158 | a market's evaluation throws exactly when its reads failed, or when it has data, passes the volume gate and the stochastic-RSI result is empty |
| `Monitor.Select` | bitcoin-monitor.js:134-171 | a selected market, and a market whose evaluation aborted the pass, is one of the listed markets |
| `Monitor.FilterMarket` | bitcoin-monitor.js:133-171 | the loop with `continue`/`return` computes the selection pass over the probes |
| `Monitor.FirstDecisiveMarketDecides` | bitcoin-monitor.js:133-171 | the first market not turned away decides: selected if it passed, pass aborted if it threw, none if all were turned away |
| `Monitor.SelectedMarketPassed` | bitcoin-monitor.js:134-169 | a selected market is in the list, passed every stage, and every market before it was turned away |
| `Monitor.ThrowAbortsPass` | bitcoin-monitor.js:134-171 | after markets that were all turned away, a failed read or an empty stochastic-RSI result ends the pass at that market instead of skipping it |
| `Monitor.NoneSelectedIffAllRejected` | bitcoin-monitor.js:134-171 | nothing is selected exactly when every market is turned away |
| `Monitor.EarlyRejectionIgnoresLibrary` | bitcoin-monitor.js:139-161 | a market turned away for missing data or volume never reaches the stochastic-RSI stage |
| `Monitor.CheckVolume` | bitcoin-monitor.js:281-292 | returns the sum of the fills' volumes, 0 for no fills |
| `Monitor.TotalVolumeAppend` | bitcoin-monitor.js:286-289 | the fill total is additive over a split of the fills |
| `Monitor.TotalVolumeNonNegative` | bitcoin-monitor.js:286-289 | non-negative fills give a non-negative total |
| `Monitor.HoldingValue` | bitcoin-monitor.js:225-226 | the holding is valued at the ticker price times the volume, less the 0.05% selling fee |
| `Monitor.ClassifyTick` | bitcoin-monitor.js:222-270 | a tick faults exactly when the request threw or the reply had no ticker; a firing tick carries the tick's time and the holding value, takes profit exactly when that value reaches the target and otherwise stops loss at or below the stop; a holding tick's value lies strictly between the two |
| `Monitor.Watch` | bitcoin-monitor.js:221-271 | a sale happens at one of the remaining ticks |
| `Monitor.WatchStopsAtFirstFire` | bitcoin-monitor.js:221-271 | the monitor closes at the first firing tick with its reason, value and time; it holds only if no tick fires |
| `Monitor.TargetBeforeStop` | bitcoin-monitor.js:236-262 | target is tested before stop; a stop exit happens only below target; a fault is an exception or an empty ticker reply |
| `Monitor.TakeProfitExample` | bitcoin-monitor.js:213-262 | buy 100, ratios 1.005/0.997, prices 100, 101, 99: take profit on tick 2 at 100.9495 |
| `Monitor.TradingBot.constructor` | bitcoin-monitor.js:31-36 | the seed and ratios come from configuration; the row buffer starts empty |
| `Monitor.TradingBot.BuyMarketOrder` | bitcoin-monitor.js:174-193 | submits the amount plus fee; on success appends the buy time and returns the uuid, on failure returns nothing |
| `Monitor.TradingBot.MonitorAndSell` | bitcoin-monitor.js:213-279 | result as `Watch`; `tryCount` counts holding ticks, each faulting tick sends one sell order; on exit the row gains sell time, adjusted buy price, sell price and label, goes to the sheet, and the buffer is reset |
| `Monitor.TradingBot.RunCycle` | bitcoin-monitor.js:295-314 | a selected market is bought for the whole seed plus the fee (`buyAmount`), and no order is sent otherwise; the number of sell orders is the monitor's; no candidate or an aborted pass leaves seed and buffer unchanged; a completed cycle emits `[market, buyTime, sellTime, adjustedBuyPrice, sellPrice, label]` after any earlier buffer content, sets seed to `floor(sellPrice)` and leaves the buffer empty |

## Left out

- Transport: `upbitRequest` and `getCandleData` (JWT signing, SHA-512 query hashing, axios and their 3-attempt retry loops). Their results are inputs: a probe, a tick, the buy reply or the order lookup, each possibly an exception.
- The HTTP request of `getAllMarkets`. Only the `KRW-` filter on its result is modelled, with a failed request giving `[]`.
- `appendToSheet`, Google Sheets authentication, `credentials.json` and `dotenv`. The row handed to the sheet is returned as `record`; the seed and ratios are constructor arguments.
- `sellMarketOrder` and the order submission in `buyMarketOrder`: abstract actions. Sell orders are counted (`sellOrders`); the buy reply is an input.
- `delay`, the 100 ms pacing between markets, the 1 s poll interval and `formatDateNow`: timing and the wall clock. Timestamps are opaque inputs.
- `StochasticRSI.calculate` from `technicalindicators`: a foreign library, passed in as a function.
- IEEE-754 rounding, `toFixed(2)` formatting and `Number(...)` parsing. Values are exact reals, and the row holds the unformatted amounts.
- `console.log` diagnostics, including the every-1000-ticks log.
- Monitor.TradingBot.MonitorAndSell: runs over a finite tick sequence. When no tick fires it ends `StillHolding`, where the source would keep polling forever.
- Monitor.TradingBot.RunCycle: models one cycle only. The unbounded self-recursion of `main` is not modelled. A cycle that ends `CycleAborted` stands for an exception escaping `main`, which ends the process.
- Volume.FilterVolume: requires a non-empty ticker list. The source reads `tickerData[0]` unguarded and would throw, and its only caller rejects empty data first.
- Ema.CalculateEma: requires `period >= 1`. The source divides by `period`, and every caller uses 200.
