# ClawSkills backtesting core in Dafny

The ClawSkills scripts test one long-only trading idea many times over. A
signal instrument (QQQ) is compared with a simple moving average (SMA) of its
daily closes, and a trade instrument (TQQQ, or QQQ itself) is held while the
signal is above. Positions end at a hybrid stop, the higher of a fixed level
below the entry price and a trailing level below the highest price since
entry, or at a reversal of the signal. Sixteen bar-by-bar variants of that
loop differ in a handful of rules:

- which SMA a bar is compared with;
- when a cross acts: the same bar, the next session or an end-of-day latch;
- how a stop is filled;
- which exits forbid a re-entry on the same date;
- whether a stopped-out signal is remembered for a re-entry.

A second family of nine grid-search scripts runs a simpler simulator. It has
a fixed stop-loss and take-profit percentage and precomputed buy and sell
flags. It reports the win rate, the profit factor and the maximum drawdown
of the trade equity curve. Around both sit small helpers:

- SMA lookups;
- the daily cross schedule;
- slippage and commission;
- the yearly balance chain;
- the parameter filters, batches, top-ten tables and resume bookkeeping of the
  grid searches.

Each script's simulation loop is modelled as it is written. The loop's
variables form a state datatype and one pass of the body a `Step` function.
`Run` folds `Step` over the bars, and a method with a `while` loop updates
local variables the way the script does. The method is proved equal to the
fold (`ensures r == Step(...)`, `invariant st == Run(..., bars[..i])`). The
rules each script promises are lemmas about `Step` and `Run`:

- the stop never falls while a trade stays open;
- capital telescopes to the starting capital plus the trades' pnl;
- full reinvestment compounds;
- the cooldown rules hold;
- the end-of-day latch is serviced on the next session's first bar;
- the trade list only grows at its end.

Prices are `real`. In the SL/TP grid scripts, the prior-SMA scripts and the crossover scripts, where a pnl or a return is rounded with `round()` before it is counted, compared or returned, the model rounds the exact value (`Rounding.RoundTo`). The SMA-50 engines keep the exact pnl in their trade records (see "Left out"). Dates are day ordinals from
1970-01-01, and a bar's time is its minute of the day in New York time. An
input that the scripts read from a file or a download is a parameter: the
joined bars, the daily series and the indicator flags.

Modules, by the file they model:

| module | models |
|---|---|
| `Core`, `Calendar` | bars, stamps, the market-hours and date-window masks, the first/last-bar tables, the year of a date |
| `Fills`, `Stops` | `apply_slippage`, commission counting, the fixed, trailing and hybrid stops, the gap-through fill |
| `Ledger`, `Position` | the append-only trade list, the all-in position book |
| `DailySma` | the daily SMA tables of every variant |
| `SmaBacktest`, `SmaBacktestRules` | `run_backtest` of sma50-strategy/scripts/backtest.py and technical-backtesting/scripts/sma50_realistic.py |
| `Yearly` | `compute_yearly_breakdown` |
| `SmaV2` … `SmaV6`, `SmaTradeList` | sma50_v2.py … sma50_v6.py, sma50_trade_list.py |
| `DailyEngine`, `EtfComparison` | backtest_v3.py and compare_etfs.py |
| `PriorSma`, `PriorSmaScripts` | the prior-N-close engine of sma_correct.py, sma_simple_15m.py and sma50_standard_output.py |
| `BestStrategy` | best_strategy_detail.py |
| `Crossover15m`, `CrossoverTest` | sma_crossover_15m.py and sma_crossover_test.py |
| `SlTpSim`, `GridMetrics`, `GridSignals`, `GridScripts`, `GridMain` | the SL/TP grid searches and their `main` bookkeeping |
| `Rounding` | Python's `round(x, d)` as the grid, prior-SMA and crossover scripts apply it to stored pnls and returned returns |

## Model

| member | source | states |
|---|---|---|
| `Fills.ApplySlippage` | sma50-strategy/scripts/backtest.py:47-52 | a buy fill is `price * (1 + s)` and a sell fill `price * (1 - s)`: no slippage leaves the price unchanged; for non-negative price and slippage a buy is never below and a sell never above the raw price, and the distance is `price * s` |
| `Fills.EffectiveSlippage` | sma50-strategy/scripts/backtest.py:55 | `--no-slippage` forces the slippage to 0, otherwise the argument is used |
| `Fills.RoundTripNeverGains` | technical-backtesting/scripts/sma50_realistic.py:47-52 | buying with slippage and selling back at the same raw price never returns more than the raw price |
| `Stops.ActiveStop` | sma50-strategy/scripts/backtest.py:148-150 | the active stop is the larger of `entry * (1 - fixed)` and `highest * (1 - trail)`: at least both and equal to one |
| `Stops.StopNeverDecreases` | technical-backtesting/scripts/sma50_realistic.py:146-150 | with a trailing fraction at most 100%, a higher highest price never lowers the active stop |
| `Stops.KindOf` | technical-backtesting/scripts/sma50_trade_list.py:175-185 | the stop label is TRAIL exactly when the trailing level is the active stop (trailing >= fixed), FIXED only when the fixed level is strictly higher |
| `Stops.GapFill` | sma50-strategy/scripts/backtest.py:155-160 | a stop fills at the stop level unless the bar's high is below it, then at the close; the fill is never above the stop for a close at or below the high |
| `Stops.GapFillWithinBar` | technical-backtesting/scripts/sma50_realistic.py:155-160 | when the bar's low reached the stop, the gap-through fill lies between the bar's low and high |
| `Ledger.Append` | sma50-strategy/scripts/backtest.py:196-203 | an entry appends one record with empty exit fields and keeps every earlier record; if no trade was open, only the last one is open afterwards |
| `Ledger.CloseLast` | sma50-strategy/scripts/backtest.py:172-176 | an exit fills the last record's exit fields, changes no other record and, with at most the last trade open before, leaves none open |
| `Ledger.CloseLastPnl` | sma50-strategy/scripts/backtest.py:275 | completing the open trade adds exactly its pnl to the completed-pnl total |
| `Ledger.CountReason` | technical-backtesting/scripts/sma_correct.py:143 | the number of completed trades with one label is at most the number of trades |
| `Ledger.AppendKeepsReentryRule` | technical-backtesting/scripts/sma50_trade_list.py:213-216 | an entry on a date other than the remembered exit date keeps "no trade opens on the date its predecessor closed" and keeps the remembered date accurate |
| `Ledger.CloseLastKeepsReentryRule` | technical-backtesting/scripts/sma50_trade_list.py:191-210 | an exit whose date is then remembered keeps the same-day re-entry rule and the remembered exit date accurate |
| `Position.Fresh` | technical-backtesting/scripts/sma50_v3.py:46-52 | the loop starts flat, with no trades and the starting capital |
| `Position.Buy` | technical-backtesting/scripts/sma50_v3.py:113-121 | an entry buys `capital / price` shares, keeps the capital as the position's worth, seeds the highest price and appends an open record |
| `Position.Sell` | technical-backtesting/scripts/sma50_v3.py:97-106 | an exit sets capital to `shares * price`, which is the old capital plus the trade's pnl `shares * (price - entry)`, and completes the open record |
| `Position.Raise` | technical-backtesting/scripts/sma50_v3.py:80-81 | the highest price becomes the larger of itself and the bar's high; nothing else changes |
| `Position.RaiseRatchets` | technical-backtesting/scripts/sma50_v3.py:80-85 | raising the highest price never lowers the position's stop |
| `Position.BuyCompounds` | technical-backtesting/scripts/sma50_v3.py:113-115 | an all-in entry keeps "capital is the starting capital times the product of exit/entry ratios" and holds exactly the shares the capital buys |
| `Position.SellCompounds` | technical-backtesting/scripts/sma50_v3.py:98-99 | an all-in exit multiplies the compounded capital by the trade's exit/entry ratio |
| `Position.Settle` | technical-backtesting/scripts/sma50_v3.py:125-133 | a position still open is sold at the last close as OPEN; afterwards no trade is open and capital is the starting capital plus all completed pnl |
| `Position.OpenAll` | technical-backtesting/scripts/sma50_v3.py:113-121 | the entry block as written equals `Buy` |
| `Position.CloseAll` | technical-backtesting/scripts/sma50_v3.py:97-106 | the exit block as written equals `Sell` |
| `Core.MarketHours` | sma50-strategy/scripts/backtest.py:42-44 | every bar kept lies in 09:30 <= time < 16:00 and comes from the input |
| `Core.MarketHoursKeeps` | technical-backtesting/scripts/sma50_realistic.py:42-44 | a bar is kept exactly when it is in the input and inside market hours |
| `Core.DateWindow` | sma50-strategy/scripts/backtest.py:71-77 | every bar kept is on or after the optional start date and on or before the optional end date |
| `Core.DateWindowKeeps` | technical-backtesting/scripts/sma50_realistic.py:71-77 | a bar is kept exactly when it is in the input and inside the optional window |
| `Core.FilterChronological` | technical-backtesting/scripts/sma50_v3.py:25 | masking a time-ordered series keeps it time-ordered |
| `Core.DayBounds` | sma50-strategy/scripts/backtest.py:79-85 | the loop filling first_bar_of_day and last_bar_of_day yields the first-bar and last-bar tables |
| `Core.TablesHoldBarsOfTheirDate` | technical-backtesting/scripts/sma50_realistic.py:79-85 | every date of a bar has both entries, and each entry is the stamp of a bar of that date |
| `Core.ChronologicalOrder` | sma50-strategy/scripts/backtest.py:69 | sorted timestamps have non-decreasing dates and are distinct |
| `Core.FirstTableMeaning` | sma50-strategy/scripts/backtest.py:118 | on sorted bars, `ts == first_bar_of_day[d]` holds exactly for a bar whose predecessor has another date |
| `Core.LastTableMeaning` | sma50-strategy/scripts/backtest.py:153 | on sorted bars, `ts == last_bar_of_day[d]` holds exactly for a bar whose successor has another date |
| `Ledger.AppendPnl` | sma50-strategy/scripts/backtest.py:196-203 | opening a trade leaves the completed-pnl total unchanged |
| `Ledger.CountClosed` | sma50-strategy/scripts/backtest.py:219 | the number of trades with their exit fields filled is at most the number of trades |
| `Ledger.CloseLastCount` | sma50-strategy/scripts/backtest.py:172-176 | completing the open trade adds one completed trade |
| `Ledger.AppendCount` | sma50-strategy/scripts/backtest.py:196-203 | opening a trade leaves the number of completed trades unchanged |
| `Core.Filter` | sma50-strategy/scripts/backtest.py:42-44 | the kept bars are no more than the input, each from the input and passing the mask |
| `Calendar.StartStep` | sma50-strategy/scripts/backtest.py:265 | the next year starts one year's length after this one |
| `Calendar.YearOfBounds` | sma50-strategy/scripts/backtest.py:265 | `exit_dt.year` of a date: the date lies on or after that year's January 1st and before the next one's |
| `Calendar.YearOfMonotone` | sma50-strategy/scripts/backtest.py:259-265 | a later date never falls in an earlier year |
| `Calendar.WindowDates` | technical-backtesting/scripts/sma50_v4.py:80-81 | the window constants are 2021-01-05 and 2026-02-07 in the day ordinal |
| `SmaBacktest.ConfigOf` | sma50-strategy/scripts/backtest.py:55-56 | `--no-slippage` forces the slippage to zero; otherwise the arguments pass through unchanged |
| `SmaBacktest.Init` | sma50-strategy/scripts/backtest.py:89-100 | the loop starts flat, unlatched, unseeded, with no trades and the ledger invariant holding |
| `SmaBacktest.CloseTrade` | sma50-strategy/scripts/backtest.py:155-180 | closing keeps the ledger invariant, changes only the last record, fills at the slipped sell price, books the capital change as pnl, records the exit date and whether it was the end-of-day exit, counts one more commission, and adds the sell fill's slippage cost, which is zero without slippage |
| `SmaBacktest.Enter` | sma50-strategy/scripts/backtest.py:187-205 | an entry charges the commission first, invests the rest at the slipped buy price, appends one open record at that price, sets the high to the bar's high and adds the buy fill's slippage cost, the shares times the distance between the fill and the close, zero without slippage |
| `SmaBacktest.ServiceLatch` | sma50-strategy/scripts/backtest.py:121-142 | at a session's first bar the latch is always cleared; away from one, or with no latch, nothing changes; without slippage the slippage total is unchanged |
| `SmaBacktest.CheckExit` | sma50-strategy/scripts/backtest.py:145-180 | the stop and cross exits keep the ledger invariant and, without slippage, the slippage total (their effect is stated by `SmaBacktestRules.ExitRule`) |
| `SmaBacktest.EodCheck` | sma50-strategy/scripts/backtest.py:210-216 | the end-of-day check only touches the latch and the previous flag, and sets the latch only while holding on a session's last bar |
| `SmaBacktest.SetPrev` | sma50-strategy/scripts/backtest.py:207 | only the previous-signal flag changes |
| `SmaBacktest.Step` | sma50-strategy/scripts/backtest.py:102-216 | every bar keeps the ledger invariant: one open trade at most, capital equal to the start plus closed pnl less entry commissions, and the commission total; without slippage no bar adds slippage cost |
| `SmaBacktest.Run` | sma50-strategy/scripts/backtest.py:99-216 | the invariant holds after any prefix of the bars, and without slippage the slippage total stays 0 |
| `SmaBacktest.Finish` | sma50-strategy/scripts/backtest.py:219-231 | after the final close no trade is open, the capital is the start plus all pnl less the entry commissions, and without slippage the final sale adds no slippage cost |
| `SmaBacktest.Backtest` | sma50-strategy/scripts/backtest.py:54-233 | the result of run_backtest has no open trade, its capital telescopes over the trades, and under `--no-slippage` its total_slippage_cost is 0 |
| `SmaBacktest.WindowDivisible` | sma50-strategy/scripts/backtest.py:71-77 | the date window keeps the bars' prices usable |
| `SmaBacktest.SellAll` | technical-backtesting/scripts/sma50_realistic.py:122-137 | the repeated sell block computes exactly `CloseTrade` |
| `SmaBacktest.ServicePending` | technical-backtesting/scripts/sma50_realistic.py:121-142 | the pending-exit block computes exactly `ServiceLatch` |
| `SmaBacktest.CheckExits` | technical-backtesting/scripts/sma50_realistic.py:145-181 | the exit block computes exactly `CheckExit` |
| `SmaBacktest.OpenPosition` | technical-backtesting/scripts/sma50_realistic.py:183-204 | the entry block computes exactly `Enter` |
| `SmaBacktest.ProcessBar` | technical-backtesting/scripts/sma50_realistic.py:102-215 | one pass of the loop body computes exactly `Step` |
| `SmaBacktest.MarkEod` | technical-backtesting/scripts/sma50_realistic.py:207-215 | the end-of-day block computes exactly `EodCheck` |
| `SmaBacktest.CloseOut` | technical-backtesting/scripts/sma50_realistic.py:217-230 | the closing block returns the trades, capital and cost totals of `Finish` on the loop's final state |
| `SmaBacktest.RunBacktest` | technical-backtesting/scripts/sma50_realistic.py:54-232 | the whole routine returns exactly `Backtest`'s trades, capital, slippage and commission totals |
| `SmaBacktestRules.SkipAndSeed` | sma50-strategy/scripts/backtest.py:104-116 | a bar without an earlier SMA date changes nothing; the first usable bar only seeds the previous flag |
| `SmaBacktestRules.ExitRule` | sma50-strategy/scripts/backtest.py:145-180 | the high is raised; the stop fires when the low reaches it and fills at the gap-adjusted stop; else a bearish cross off the session's last bar exits at the close; the position stays open exactly when neither fires |
| `SmaBacktestRules.StopRatchets` | sma50-strategy/scripts/backtest.py:145-150 | a bar that keeps the position never lowers the active stop |
| `SmaBacktestRules.StepStopRatchets` | sma50-strategy/scripts/backtest.py:102-216 | over a whole bar that keeps the same trade open, the active stop never falls |
| `SmaBacktestRules.LatchOnlyAtSessionEnd` | sma50-strategy/scripts/backtest.py:210-216 | the latch is newly set only on a session's last bar while still holding |
| `SmaBacktestRules.LatchServicedAtOpen` | sma50-strategy/scripts/backtest.py:121-142 | at the next session's first bar a latched trade closes at that bar's slipped close as "SMA EXIT (EOD)", and a bullish bar re-enters at once |
| `SmaBacktestRules.SameDayCooldown` | sma50-strategy/scripts/backtest.py:183-186 | after a stop or intraday SMA exit no new trade opens on the same date |
| `SmaBacktestRules.RunNoSameDayReentry` | sma50-strategy/scripts/backtest.py:179-186 | over the whole run no trade opens on the date a stop or intraday SMA exit closed the one before; `last_exit_date` holds that date and `last_exit_was_eod` is False (line 184 tests both) |
| `SmaBacktestRules.StepCooldown` | sma50-strategy/scripts/backtest.py:104-216 | one pass of the loop body keeps that bookkeeping |
| `SmaBacktestRules.LatchCooldown` | sma50-strategy/scripts/backtest.py:121-139 | the latched end-of-day exit keeps it: its label starts no cooldown |
| `SmaBacktestRules.CloseCooldown` | sma50-strategy/scripts/backtest.py:165-180 | completing the open trade for any reason keeps it, remembering the date and whether the exit was end-of-day |
| `SmaBacktestRules.ExitCooldown` | sma50-strategy/scripts/backtest.py:145-180 | a stop or intraday SMA exit keeps it |
| `SmaBacktestRules.EnterCooldown` | sma50-strategy/scripts/backtest.py:183-205 | an entry the cooldown lets through keeps it |
| `SmaBacktestRules.FlagsCooldown` | sma50-strategy/scripts/backtest.py:207-216 | updating prev_above_sma and the end-of-day latch touches neither the trades nor the remembered exit |
| `SmaBacktestRules.AppendAfterOtherExit` | sma50-strategy/scripts/backtest.py:183-186 | an entry after an end-of-day exit keeps the rule, even on that exit's date |
| `SmaBacktestRules.StepKeepsHistory` | sma50-strategy/scripts/backtest.py:129-134 | a bar never rewrites a trade before the last one: it completes at most the last and appends at most one |
| `SmaBacktestRules.NextOpensSession` | sma50-strategy/scripts/backtest.py:79-85 | on sorted bars, the bar after a session's last bar is the next session's first bar, on a later date |
| `SmaBacktestRules.PendingAfterSessionEnd` | sma50-strategy/scripts/backtest.py:210-216 | while the latch is set, the previous bar closed its session and the position is held |
| `SmaBacktestRules.LatchServicedNextBar` | sma50-strategy/scripts/backtest.py:118-142 | a latch set at one session's end is serviced by the very next bar, which opens the next session and sells at its close as "SMA EXIT (EOD)" |
| `Yearly.AddTrade` | sma50-strategy/scripts/backtest.py:260-276 | one priced trade adds its pnl to the running balance and its exit year to the table's keys |
| `Yearly.YearlyBreakdown` | sma50-strategy/scripts/backtest.py:250-278 | the loop builds exactly the table of the priced trades folded in order from the starting capital |
| `Yearly.ThroughIsAll` | sma50-strategy/scripts/backtest.py:259-276 | when no trade closes after year y, the pnl through y is all the closed pnl |
| `Yearly.BeforeIsAll` | sma50-strategy/scripts/backtest.py:259-276 | when no trade closes in or after y, the pnl before y is all the closed pnl |
| `Yearly.TallyKeys` | sma50-strategy/scripts/backtest.py:262-273 | the table has a row exactly for the exit years of the priced trades; each row lists that year's trades in order and counts its stop exits |
| `Yearly.TallyRunning` | sma50-strategy/scripts/backtest.py:274-276 | the running balance ends at the starting capital plus every priced pnl |
| `Yearly.TallyChains` | sma50-strategy/scripts/backtest.py:265-276 | with trades closing in year order, a year begins at the start plus all earlier years' pnl and ends at the start plus the pnl through that year |
| `Yearly.OfYearMember` | sma50-strategy/scripts/backtest.py:265 | a year with trades has a priced trade whose exit falls in it |
| `Yearly.OfYearHas` | sma50-strategy/scripts/backtest.py:265 | the exit year of a priced trade always has a row |
| `Yearly.YearSpan` | sma50-strategy/scripts/backtest.py:270-276 | the pnl through a year is the pnl before it plus that year's own trades' pnl |
| `Yearly.YearBalances` | sma50-strategy/scripts/backtest.py:270-276 | each year ends at its begin balance plus the pnl of its own trades |
| `Yearly.ConsecutiveYears` | sma50-strategy/scripts/backtest.py:265-270 | a year begins at the end balance of the previous year that has a row |
| `Yearly.GapPnl` | sma50-strategy/scripts/backtest.py:259-276 | years without trades add nothing between two years |
| `SmaV3.CheckExit` | technical-backtesting/scripts/sma50_v3.py:79-106 | holding exits keep the book's invariant and leave the previous flag alone |
| `SmaV3.Step` | technical-backtesting/scripts/sma50_v3.py:56-123 | every bar keeps the book's invariant |
| `SmaV3.Run` | technical-backtesting/scripts/sma50_v3.py:56 | the invariant holds after any prefix of the market-hours bars |
| `SmaV3.Backtest` | technical-backtesting/scripts/sma50_v3.py:29-133 | the script's result has no open trade and its capital is the start plus the closed pnl |
| `SmaV3.MarketHoursDivisible` | technical-backtesting/scripts/sma50_v3.py:19-24 | the market-hours filter keeps the bars' closes usable |
| `SmaV3.ProcessBar` | technical-backtesting/scripts/sma50_v3.py:57-123 | the loop body computes exactly `Step` |
| `SmaV3.Simulate` | technical-backtesting/scripts/sma50_v3.py:56-123 | the loop computes exactly `Run` over the bars |
| `SmaV3.RunV3` | technical-backtesting/scripts/sma50_v3.py:29-133 | the script's trades and capital are exactly `Backtest`'s |
| `SmaV3.SkipAndSeed` | technical-backtesting/scripts/sma50_v3.py:59-76 | a bar without an earlier SMA date changes nothing; the first usable bar only seeds the previous flag |
| `SmaV3.ExitRule` | technical-backtesting/scripts/sma50_v3.py:79-106 | the stop fires when the low reaches it and fills at the stop; else a bearish cross exits at the close; the position stays open exactly when neither fires, and then the stop has not fallen |
| `SmaV3.EntryRule` | technical-backtesting/scripts/sma50_v3.py:109-121 | from flat, a trade opens only on a bullish cross against an earlier SMA date that had no exit, investing everything at the close |
| `SmaV3.RunCompounds` | technical-backtesting/scripts/sma50_v3.py:56-133 | with full reinvestment the capital is the start times the product of the trades' exit/entry ratios |
| `SmaV3.StepCompounds` | technical-backtesting/scripts/sma50_v3.py:57-123 | one bar keeps that compounding identity |
| `SmaTradeList.Cleared` | technical-backtesting/scripts/sma50_trade_list.py:207-209 | zeroing the entry and the high after an exit keeps the book, its trades and its capital |
| `SmaTradeList.CheckExit` | technical-backtesting/scripts/sma50_trade_list.py:170-210 | the exits keep the book's invariant, the previous flag and the seed date |
| `SmaTradeList.Step` | technical-backtesting/scripts/sma50_trade_list.py:130-234 | every bar keeps the book's invariant |
| `SmaTradeList.Run` | technical-backtesting/scripts/sma50_trade_list.py:130 | the invariant holds after any prefix of the bars |
| `SmaTradeList.Backtest` | technical-backtesting/scripts/sma50_trade_list.py:112-250 | the script's result has no open trade and its capital is the start plus the closed pnl |
| `SmaTradeList.CheckExits` | technical-backtesting/scripts/sma50_trade_list.py:170-210 | the exit block computes exactly `CheckExit` |
| `SmaTradeList.ProcessBar` | technical-backtesting/scripts/sma50_trade_list.py:130-234 | one pass of the loop body computes exactly `Step` |
| `SmaTradeList.Simulate` | technical-backtesting/scripts/sma50_trade_list.py:153-234 | the loop computes exactly `Run` |
| `SmaTradeList.RunTradeList` | technical-backtesting/scripts/sma50_trade_list.py:112-250 | the script's trades and capital are exactly `Backtest`'s |
| `SmaTradeList.SeedRule` | technical-backtesting/scripts/sma50_trade_list.py:131-144 | without an earlier SMA date nothing changes; the first one seeds the flag from that date's daily close against its SMA; the rest of the seed date trades nothing |
| `SmaTradeList.UnquotedSkipped` | technical-backtesting/scripts/sma50_trade_list.py:160-164 | a TQQQ bar without a QQQ bar at its time changes nothing |
| `SmaTradeList.ExitRule` | technical-backtesting/scripts/sma50_trade_list.py:175-210 | the stop fills at the active stop, labelled TRAIL STOP exactly when the trailing level is at least the fixed one; else a bearish cross exits at the close; an exit leaves no shares, zero entry and high, the shares' value as capital and records the date |
| `SmaTradeList.EntryRule` | technical-backtesting/scripts/sma50_trade_list.py:213-233 | from flat a quoted bar enters at its close with its high exactly when the flag goes from False to above on a date without an exit; otherwise the book is unchanged |
| `SmaTradeList.RunNoSameDayReentry` | technical-backtesting/scripts/sma50_trade_list.py:214-215 | over a whole run no trade opens on the date the previous one closed |
| `SmaTradeList.StepCooldown` | technical-backtesting/scripts/sma50_trade_list.py:191-233 | one bar keeps the no-same-day re-entry bookkeeping |
| `SmaV2.CrossEvents` | technical-backtesting/scripts/sma50_v2.py:36-43 | the loop computes exactly the event table of the sorted SMA dates |
| `SmaV2.EventMeaning` | technical-backtesting/scripts/sma50_v2.py:38-43 | a date is an event exactly when its side of the SMA differs from the previous SMA date's, and then it is "up" exactly when it closes above |
| `SmaV2.WindowDays` | technical-backtesting/scripts/sma50_v2.py:71 | the window keeps exactly the trading dates from 2021-01-05 to 2026-02-07 and keeps them sorted |
| `SmaV2.BuildSchedule` | technical-backtesting/scripts/sma50_v2.py:74-83 | the loop computes exactly the entry and SMA-exit date sets of the events |
| `SmaV2.ScheduleEvent` | technical-backtesting/scripts/sma50_v2.py:76-83 | one event adds its next trading date to the set of its kind |
| `SmaV2.AddKey` | technical-backtesting/scripts/sma50_v2.py:76-83 | scheduling one more event adds at most that event's next trading date |
| `SmaV2.ScheduledOnNextDay` | technical-backtesting/scripts/sma50_v2.py:78-83 | every scheduled date is the first trading date after an event of its kind |
| `SmaV2.CheckExit` | technical-backtesting/scripts/sma50_v2.py:118-147 | the exits keep the book's invariant |
| `SmaV2.Step` | technical-backtesting/scripts/sma50_v2.py:112-161 | every bar keeps the book's invariant |
| `SmaV2.Run` | technical-backtesting/scripts/sma50_v2.py:104-161 | the invariant holds after any prefix of the bars |
| `SmaV2.Backtest` | technical-backtesting/scripts/sma50_v2.py:24-171 | the script's result has no open trade and its capital is the start plus the closed pnl |
| `SmaV2.CheckExits` | technical-backtesting/scripts/sma50_v2.py:118-147 | the exit block computes exactly `CheckExit` |
| `SmaV2.ProcessBar` | technical-backtesting/scripts/sma50_v2.py:113-161 | one pass of the inner loop computes exactly `Step` |
| `SmaV2.Simulate` | technical-backtesting/scripts/sma50_v2.py:104-161 | the date loop computes exactly `Run` |
| `SmaV2.RunV2` | technical-backtesting/scripts/sma50_v2.py:24-171 | the script's trades and capital are exactly `Backtest`'s |
| `SmaV2.ExitRule` | technical-backtesting/scripts/sma50_v2.py:129-146 | the stop beats a scheduled SMA exit and fills at the stop; else an unused scheduled SMA exit sells at the close and is used up; either exit records the date and cancels the date's entry; else only the high moves |
| `SmaV2.EntryRule` | technical-backtesting/scripts/sma50_v2.py:149-161 | from flat a trade opens exactly on an unused scheduled entry date without an exit, at the close, and uses the entry up |
| `SmaV2.RunKeepsSchedule` | technical-backtesting/scripts/sma50_v2.py:104-161 | over a run no trade reopens on its predecessor's exit date, every trade opens on a scheduled entry date and every SMA exit falls on a scheduled exit date |
| `SmaV2.StepKeeps` | technical-backtesting/scripts/sma50_v2.py:112-161 | one bar keeps that schedule and cooldown bookkeeping |
| `SmaV2.CloseLastOnSchedule` | technical-backtesting/scripts/sma50_v2.py:137-143 | closing the last trade with an SMA exit on a scheduled date keeps the trades on schedule |
| `SmaV4.CrossDowns` | technical-backtesting/scripts/sma50_v4.py:48-52 | the loop computes exactly the cross-down set of the sorted SMA dates |
| `SmaV4.CrossDownMeaning` | technical-backtesting/scripts/sma50_v4.py:49-52 | a date is a cross-down exactly when the previous SMA date closed above its SMA and it does not |
| `SmaV4.FirstAfter` | technical-backtesting/scripts/sma50_v4.py:58-60 | the first listed trading date after d, or None exactly when there is none |
| `SmaV4.FirstAfterIsNext` | technical-backtesting/scripts/sma50_v4.py:58-60 | on sorted dates that first later date is the next trading date |
| `SmaV4.MapExitDates` | technical-backtesting/scripts/sma50_v4.py:56-60 | the loop computes exactly the set of next trading dates of the cross-downs |
| `SmaV4.CheckExit` | technical-backtesting/scripts/sma50_v4.py:115-146 | the exits keep the book's invariant and the previous flag |
| `SmaV4.Step` | technical-backtesting/scripts/sma50_v4.py:99-163 | every bar keeps the book's invariant |
| `SmaV4.Run` | technical-backtesting/scripts/sma50_v4.py:83-163 | the invariant holds after any prefix of the bars |
| `SmaV4.Window` | technical-backtesting/scripts/sma50_v4.py:80-81 | the simulated bars are bars of the input inside the date window and market hours |
| `SmaV4.Backtest` | technical-backtesting/scripts/sma50_v4.py:37-174 | the script's result has no open trade and its capital is the start plus the closed pnl |
| `SmaV4.WindowDivisible` | technical-backtesting/scripts/sma50_v4.py:80-81 | the window keeps the bars' closes usable |
| `SmaV4.CheckExits` | technical-backtesting/scripts/sma50_v4.py:115-146 | the exit block computes exactly `CheckExit` |
| `SmaV4.ProcessBar` | technical-backtesting/scripts/sma50_v4.py:99-163 | one pass of the inner loop computes exactly `Step` |
| `SmaV4.Simulate` | technical-backtesting/scripts/sma50_v4.py:83-163 | the loop computes exactly `Run` |
| `SmaV4.RunV4` | technical-backtesting/scripts/sma50_v4.py:37-174 | the script's trades and capital are exactly `Backtest`'s |
| `SmaV4.ExitRule` | technical-backtesting/scripts/sma50_v4.py:127-146 | on an SMA-exit date whose exit is not yet done a held bar sells at the close as "SMA EXIT" whatever the stop says and the date is done; otherwise the stop fills at the active stop and records a stop date; the position stays open exactly when the low stays above the stop |
| `SmaV4.StopOnlyCooldown` | technical-backtesting/scripts/sma50_v4.py:145-152 | from flat a bullish cross enters exactly when the date had no stop exit |
| `SmaV4.RunNoReentryAfterStop` | technical-backtesting/scripts/sma50_v4.py:75 | over a run no trade opens on the date its predecessor was stopped out |
| `SmaV4.StepCooldown` | technical-backtesting/scripts/sma50_v4.py:145-152 | one bar keeps that stop-only cooldown bookkeeping |
| `SmaV4.SkipAndSeed` | technical-backtesting/scripts/sma50_v4.py:89-112 | a bar without an earlier SMA date changes nothing; the first usable bar only seeds the previous flag |
| `SmaV5.SeedEod` | technical-backtesting/scripts/sma50_v5.py:84-88 | the loop, with its break, computes exactly the seed over the sorted SMA dates |
| `SmaV5.SeedIgnoresLater` | technical-backtesting/scripts/sma50_v5.py:85-86 | once a date reaches 2021-01-05 no later date changes the seed |
| `SmaV5.SeedMeaning` | technical-backtesting/scripts/sma50_v5.py:84-88 | the seed is the close-above-SMA comparison at the last date before 2021-01-05 present in both tables, or None when there is none |
| `SmaV5.ServiceExit` | technical-backtesting/scripts/sma50_v5.py:116-126 | the latched exit keeps the book's invariant |
| `SmaV5.ServiceEntry` | technical-backtesting/scripts/sma50_v5.py:129-143 | the latched entry keeps the invariant, and the "entry" latch never survives the bar |
| `SmaV5.CheckExit` | technical-backtesting/scripts/sma50_v5.py:146-173 | the intraday exits keep the invariant and leave both flags and the latch alone |
| `SmaV5.EodCheck` | technical-backtesting/scripts/sma50_v5.py:193-206 | the end-of-day check never touches the book or the exit date |
| `SmaV5.Step` | technical-backtesting/scripts/sma50_v5.py:95-206 | every bar keeps the book's invariant |
| `SmaV5.Intraday` | technical-backtesting/scripts/sma50_v5.py:146-206 | the intraday exit or entry and the end-of-day check keep the invariant |
| `SmaV5.Run` | technical-backtesting/scripts/sma50_v5.py:95 | the invariant holds after any prefix of the bars |
| `SmaV5.Backtest` | technical-backtesting/scripts/sma50_v5.py:43-218 | the script's result has no open trade and its capital is the start plus the closed pnl |
| `SmaV5.MarketHoursDivisible` | technical-backtesting/scripts/sma50_v5.py:30-32 | the market-hours filter keeps the bars' closes usable |
| `SmaV5.ServiceLatches` | technical-backtesting/scripts/sma50_v5.py:116-143 | the two latch blocks compute exactly `ServiceExit` then `ServiceEntry` |
| `SmaV5.ProcessBar` | technical-backtesting/scripts/sma50_v5.py:96-206 | one pass of the loop body computes exactly `Step` |
| `SmaV5.CheckExits` | technical-backtesting/scripts/sma50_v5.py:146-173 | the exit block computes exactly `CheckExit` |
| `SmaV5.ProcessIntraday` | technical-backtesting/scripts/sma50_v5.py:146-206 | the rest of the body computes exactly `Intraday` |
| `SmaV5.Simulate` | technical-backtesting/scripts/sma50_v5.py:95-206 | the loop computes exactly `Run` |
| `SmaV5.RunV5` | technical-backtesting/scripts/sma50_v5.py:43-218 | the script's trades and capital are exactly `Backtest`'s |
| `SmaV5.SkipAndSeed` | technical-backtesting/scripts/sma50_v5.py:98-111 | a date without a previous-row SMA is skipped; the first usable bar only seeds the previous flag |
| `SmaV5.LatchOnFlip` | technical-backtesting/scripts/sma50_v5.py:193-206 | the exit latch is set only on an end-of-day flip from above to below while holding, the entry latch only on a flip from below to above while flat; both flags then take the new state; other bars change nothing |
| `SmaV5.EodExitAtOpen` | technical-backtesting/scripts/sma50_v5.py:113-126 | an end-of-day exit happens exactly on a 09:30 bar with a latch set while holding, and sells at that bar's close as "SMA EXIT (EOD)" |
| `SmaV5.EodEntryAtOpen` | technical-backtesting/scripts/sma50_v5.py:129-143 | the entry latch buys only on a 09:30 bar while flat and without an exit that date, at the close; the latch does not survive the bar |
| `SmaV5.ExitRule` | technical-backtesting/scripts/sma50_v5.py:146-173 | the stop fires first and fills at the stop; else a bearish cross exits at the close; the position stays open exactly when neither fires, and then the stop has not fallen |
| `SmaV5.RunNoSameDayReentry` | technical-backtesting/scripts/sma50_v5.py:130 | over a run no trade opens on the date its predecessor closed |
| `SmaV5.LatchesCooldown` | technical-backtesting/scripts/sma50_v5.py:129-131 | the latch blocks keep the cooldown bookkeeping |
| `SmaV5.StepCooldown` | technical-backtesting/scripts/sma50_v5.py:176-179 | one bar keeps the cooldown bookkeeping |
| `SmaV6.ServiceLatch` | technical-backtesting/scripts/sma50_v6.py:106-124 | servicing the latch leaves it cleared, the position flat and the flag at the bar's intraday state |
| `SmaV6.CheckExit` | technical-backtesting/scripts/sma50_v6.py:127-154 | the exits keep the invariant, the flag and the latch |
| `SmaV6.EodCheck` | technical-backtesting/scripts/sma50_v6.py:174-185 | the end-of-day check never touches the book or the exit date |
| `SmaV6.Step` | technical-backtesting/scripts/sma50_v6.py:85-185 | every bar keeps the book's invariant |
| `SmaV6.Run` | technical-backtesting/scripts/sma50_v6.py:85 | the invariant holds after any prefix of the bars |
| `SmaV6.Backtest` | technical-backtesting/scripts/sma50_v6.py:42-197 | the script's result has no open trade and its capital is the start plus the closed pnl |
| `SmaV6.MarketHoursDivisible` | technical-backtesting/scripts/sma50_v6.py:30-32 | the market-hours filter keeps the bars' closes usable |
| `SmaV6.ProcessBar` | technical-backtesting/scripts/sma50_v6.py:86-185 | one pass of the loop body computes exactly `Step` |
| `SmaV6.CheckExits` | technical-backtesting/scripts/sma50_v6.py:126-154 | the intraday exit block computes exactly `CheckExit` |
| `SmaV6.MarkEod` | technical-backtesting/scripts/sma50_v6.py:172-186 | the end-of-day block computes exactly `EodCheck` |
| `SmaV6.Simulate` | technical-backtesting/scripts/sma50_v6.py:85-185 | the loop computes exactly `Run` |
| `SmaV6.RunV6` | technical-backtesting/scripts/sma50_v6.py:42-197 | the script's trades and capital are exactly `Backtest`'s |
| `SmaV6.SkipAndSeed` | technical-backtesting/scripts/sma50_v6.py:88-101 | a date without a previous-row SMA is skipped; the first usable bar only seeds the previous flag |
| `SmaV6.ExitRule` | technical-backtesting/scripts/sma50_v6.py:127-154 | the stop fires first and fills exactly at the stop, with no gap rule; else a bearish cross exits at the close; the position stays open exactly when neither fires, and then the stop has not fallen |
| `SmaV6.LatchAtSessionEnd` | technical-backtesting/scripts/sma50_v6.py:174-185 | the latch is set only at a session's last bar while holding with the daily close at or below its SMA, and always then; the flag becomes the end-of-day state; other bars change nothing |
| `SmaV6.LatchServiced` | technical-backtesting/scripts/sma50_v6.py:106-124 | a first bar with the latch set sells a held trade at its close as "SMA EXIT (EOD)", clears the latch and takes the intraday flag, and does nothing else |
| `SmaV6.RunNoSameDayReentry` | technical-backtesting/scripts/sma50_v6.py:157-160 | over a run no trade opens on the date its predecessor closed |
| `SmaV6.StepCooldown` | technical-backtesting/scripts/sma50_v6.py:116-160 | one bar keeps the cooldown bookkeeping |
| `SmaV6.EntryRule` | technical-backtesting/scripts/sma50_v6.py:157-169 | a trade opens only from flat on a bullish cross, never at a first bar with the latch set nor on a date with an exit, investing everything at the close |
| `DailySma.Rolling` | sma50-strategy/scripts/backtest.py:60 | `rolling(p).mean()` at a row is defined exactly from row p - 1 on (p at least 1) |
| `DailySma.BuildTables` | sma50-strategy/scripts/backtest.py:59-67 | the loop computes exactly the SMA and close tables of the rows with a defined SMA |
| `DailySma.TableKeys` | sma50-strategy/scripts/backtest.py:63-67 | both tables have the same keys, each the date of a row with a defined SMA |
| `DailySma.TablesAt` | sma50-strategy/scripts/backtest.py:63-67 | on ascending dates a row's date is in the tables exactly when its SMA is defined, with that row's SMA and close |
| `DailySma.LatestKeyBefore` | sma50-strategy/scripts/backtest.py:104-107 | `max(sd for sd in keys if sd < d)`: the largest key before d, or None exactly when no key is earlier |
| `DailySma.RefSma` | sma50-strategy/scripts/backtest.py:104-110 | the SMA of the latest earlier date, None exactly when there is none |
| `DailySma.LatestBeforeIsPreviousRow` | sma50-strategy/scripts/backtest.py:104-110 | for a row whose predecessor has an SMA, the reference is the previous row's SMA |
| `DailySma.ValidDaysInTable` | technical-backtesting/scripts/sma50_v6.py:46-51 | every date of sorted_daily_dates is in the SMA table |
| `DailySma.ValidDaysAreTail` | technical-backtesting/scripts/sma50_v6.py:46-51 | sorted_daily_dates holds exactly the dates of rows p - 1 onwards |
| `DailySma.BuildV6Tables` | technical-backtesting/scripts/sma50_v6.py:41-54 | the two loops compute exactly the SMA, close, sorted-dates and previous-SMA tables |
| `DailySma.PrevFromListAt` | technical-backtesting/scripts/sma50_v6.py:53-54 | a listed date has a previous-SMA entry exactly when it is not the first, holding the SMA of the date before it |
| `DailySma.PrevFromListKeys` | technical-backtesting/scripts/sma50_v6.py:53-54 | every previous-SMA key is a listed date after the first |
| `DailySma.ValidDaysAscending` | technical-backtesting/scripts/sma50_v6.py:46-51 | sorted_daily_dates is strictly ascending |
| `DailySma.V6PrevMeaning` | technical-backtesting/scripts/sma50_v6.py:41-54 | a daily row has a previous-SMA entry exactly from row p on, holding the previous row's SMA |
| `DailySma.V6PrevPresent` | technical-backtesting/scripts/sma50_v6.py:53-54 | from row p on the entry is present and is the previous row's rolling mean |
| `DailySma.V6PrevAbsent` | technical-backtesting/scripts/sma50_v6.py:53-54 | rows before p have no entry |
| `DailySma.BuildV5Tables` | technical-backtesting/scripts/sma50_v5.py:44-56 | the loop computes exactly the SMA, close and previous-SMA tables |
| `DailySma.SmaStep` | technical-backtesting/scripts/sma50_v5.py:50-52 | a row with a defined SMA adds its SMA and close; any other row adds nothing |
| `DailySma.V5PrevAt` | technical-backtesting/scripts/sma50_v5.py:53-56 | a row has a previous-SMA entry exactly from row p on, holding the previous row's SMA |
| `DailySma.V5EqualsV6` | technical-backtesting/scripts/sma50_v5.py:44-56 | v5's prev_sma and v6's prev_sma_by_date agree on every daily row |
| `DailySma.DailyCloses` | technical-backtesting/scripts/sma_correct.py:58-61 | the loop computes exactly the last close of each date ("last close wins") |
| `DailySma.DailySeriesShape` | technical-backtesting/scripts/sma_correct.py:63-64 | the sorted daily series has strictly ascending dates and ends on the last bar's date |
| `DailySma.DailySeriesCloses` | technical-backtesting/scripts/sma_correct.py:63-64 | every row of the series carries its date's daily close |
| `DailySma.DailySeriesCovers` | technical-backtesting/scripts/sma_correct.py:63-64 | every date of the table has its row in the series |
| `DailySma.PriorMeans` | technical-backtesting/scripts/sma_correct.py:68-70 | the loop computes exactly the table of the means of the p closes before each row |
| `DailySma.PriorMeanMeaning` | technical-backtesting/scripts/sma_correct.py:68-70 | a row's date has an entry exactly from row p on, and it is the mean of the p closes before it |
| `DailyEngine.Align` | sma-daily-trading/scripts/backtest_v3.py:52-61 | the SMA is taken over the whole signal download; the aligned rows are at most the signal rows and include every signal row that has a trade bar and lies on or after the start |
| `DailyEngine.AlignOnlyKept` | sma-daily-trading/scripts/backtest_v3.py:56-61 | every aligned row is a kept signal row joined with the trade bar of its date |
| `DailyEngine.Raised` | sma-daily-trading/scripts/backtest_v3.py:91-92 | raising the high since entry only moves the high, never down, and to at least the day's high |
| `DailyEngine.Close` | sma-daily-trading/scripts/backtest_v3.py:105-126 | an exit leaves no position, locks the next calendar day, appends the completed trade with pnl (exit - entry) * shares and adds that pnl to the portfolio |
| `DailyEngine.Backtest` | sma-daily-trading/scripts/backtest_v3.py:71-210 | after the final close no position is open and the portfolio is the capital plus the trades' pnl |
| `DailyEngine.CheckExits` | sma-daily-trading/scripts/backtest_v3.py:90-156 | the held-day block computes exactly `CheckExit` |
| `DailyEngine.ProcessDay` | sma-daily-trading/scripts/backtest_v3.py:71-185 | one pass of the loop body computes exactly `Step` |
| `DailyEngine.RunBacktest` | sma-daily-trading/scripts/backtest_v3.py:71-210 | the loop and the final close compute exactly `Backtest`'s trades and portfolio |
| `DailyEngine.RunV3` | sma-daily-trading/scripts/backtest_v3.py:17-214 | run_backtest returns exactly `Backtest` over the aligned rows and the buy-and-hold final of the signal ETF |
| `DailyEngine.RunBalance` | sma-daily-trading/scripts/backtest_v3.py:105-132 | after any number of days the portfolio is the capital plus the completed trades' pnl |
| `DailyEngine.StepBalance` | sma-daily-trading/scripts/backtest_v3.py:71-185 | one day keeps the portfolio minus the total pnl unchanged |
| `DailyEngine.LockedDay` | sma-daily-trading/scripts/backtest_v3.py:85-88 | on a locked day only the high since entry moves |
| `DailyEngine.ExitRule` | sma-daily-trading/scripts/backtest_v3.py:90-156 | a close at or below the higher stop exits at that close, labelled TRAIL exactly when the trailing level is at least the fixed one, and remembers whether the signal is still above; otherwise a bearish cross exits at the open and clears the memory; otherwise only the high moves |
| `DailyEngine.EntryRule` | sma-daily-trading/scripts/backtest_v3.py:158-185 | on an unlocked flat day a set memory re-enters at the open as REENT while the signal is above, else a bullish cross enters at the open as CROSS with the whole portfolio; the memory always ends cleared |
| `DailyEngine.RunSpaced` | sma-daily-trading/scripts/backtest_v3.py:85-88 | over a run each trade opens at least two calendar days after the previous exit |
| `DailyEngine.StepLockKept` | sma-daily-trading/scripts/backtest_v3.py:123-155 | one day keeps the lock bookkeeping |
| `DailyEngine.BacktestSpaced` | sma-daily-trading/scripts/backtest_v3.py:187-210 | the final END close keeps the spacing of the trades |
| `DailyEngine.RunPriced` | sma-daily-trading/scripts/backtest_v3.py:160-183 | every entry price is one of the nonzero opens |
| `DailyEngine.BacktestPriced` | sma-daily-trading/scripts/backtest_v3.py:187-210 | every trade of the result has a nonzero entry price |
| `EtfComparison.Winners` | sma-daily-trading/scripts/compare_etfs.py:146 | the winning trades are exactly the trades with positive pnl, in order |
| `EtfComparison.Losers` | sma-daily-trading/scripts/compare_etfs.py:147 | the losing trades are exactly the trades with negative pnl, in order |
| `EtfComparison.WinRate` | sma-daily-trading/scripts/compare_etfs.py:148 | the win rate lies in 0..100, is 0 without trades and is 100 exactly when every trade wins |
| `EtfComparison.RunPair` | sma-daily-trading/scripts/compare_etfs.py:30-165 | None exactly when a download is empty or fewer than 10 aligned rows remain; otherwise the final is the capital plus the trades' pnl, the alpha is the return less buy-and-hold's, and the win rate lies in 0..100 |
| `EtfComparison.BuyAndHoldFormulasAgree` | sma-daily-trading/scripts/compare_etfs.py:139-142 | the script's buy-and-hold final through its percentage equals backtest_v3's capital times end over start |
| `EtfComparison.AlphaSign` | sma-daily-trading/scripts/compare_etfs.py:160 | the alpha is positive exactly when the strategy ends above buy-and-hold |
| `EtfComparison.Collect` | sma-daily-trading/scripts/compare_etfs.py:176-181 | the results are exactly the pairs that returned a summary |
| `EtfComparison.Place` | sma-daily-trading/scripts/compare_etfs.py:187 | the insertion point passes exactly the leading summaries returning at least as much |
| `EtfComparison.PlaceIn` | sma-daily-trading/scripts/compare_etfs.py:187 | inserting a summary keeps all the others |
| `EtfComparison.Ranked` | sma-daily-trading/scripts/compare_etfs.py:187 | the ranking is a permutation of the results |
| `EtfComparison.PlaceInRanked` | sma-daily-trading/scripts/compare_etfs.py:187 | inserting into a ranked list leaves it ranked |
| `EtfComparison.RankedIsSorted` | sma-daily-trading/scripts/compare_etfs.py:187 | the ranking is a permutation of the results in descending order of return |
| `PriorSma.Start` | technical-backtesting/scripts/sma_correct.py:72-77 | the loop starts flat with the starting capital, no trades and no previous flag |
| `PriorSma.StopReason` | technical-backtesting/scripts/sma50_standard_output.py:90-92 | without labels a stop is plain "stop"; with labels it is TRAIL exactly when the trailing level is at least the fixed one, else FIXED |
| `PriorSma.Rescale` | technical-backtesting/scripts/sma_correct.py:104-113 | selling at `price` scales the wealth by price over entry |
| `PriorSma.Close` | technical-backtesting/scripts/sma_correct.py:101-117 | an exit keeps the invariant, leaves no position and a zero high, sets the capital to the shares' value at the fill and appends the completed trade |
| `PriorSma.SharesValue` | technical-backtesting/scripts/sma_correct.py:122 | `cap / price` shares are worth `cap` at that price, and are zero exactly when the capital is |
| `PriorSma.Enter` | technical-backtesting/scripts/sma_correct.py:120-124 | an entry buys `cap / close` shares at the close, empties the capital and seeds the high from the bar |
| `PriorSma.Raised` | technical-backtesting/scripts/sma_correct.py:91-92 | the new high is the larger of the old high and the bar's high (or close) |
| `PriorSma.Exits` | technical-backtesting/scripts/sma_correct.py:89-117 | the exit block keeps the invariant and the previous flag |
| `PriorSma.Step` | technical-backtesting/scripts/sma_correct.py:79-126 | every bar keeps the invariant |
| `PriorSma.WithPrev` | technical-backtesting/scripts/sma_correct.py:126 | only the previous flag changes |
| `PriorSma.Run` | technical-backtesting/scripts/sma_correct.py:79 | the invariant holds after any prefix of the bars |
| `PriorSma.Finish` | technical-backtesting/scripts/sma_correct.py:128-133 | a long position is sold at the last bar's close and the result is flat; a flat one is left alone |
| `PriorSma.Backtest` | technical-backtesting/scripts/sma_correct.py:72-133 | the closing block leaves no long position |
| `PriorSma.ProcessBar` | technical-backtesting/scripts/sma_correct.py:80-126 | one pass of the loop body computes exactly `Step` |
| `PriorSma.CheckExits` | technical-backtesting/scripts/sma_correct.py:88-117 | the exit block computes exactly `Exits` |
| `PriorSma.OpenPosition` | technical-backtesting/scripts/sma_correct.py:120-124 | the entry block computes exactly `Enter` |
| `PriorSma.Simulate` | technical-backtesting/scripts/sma_correct.py:79-126 | the loop computes exactly `Run` |
| `PriorSma.Simulation` | technical-backtesting/scripts/sma_correct.py:79-133 | the loop and the closing block compute exactly `Backtest` |
| `PriorSma.SkipRule` | technical-backtesting/scripts/sma_correct.py:81 | a bar whose date has no SMA changes nothing; any other bar leaves the flag at its comparison |
| `PriorSma.ExitRule` | technical-backtesting/scripts/sma_correct.py:89-117 | the stop (low at or below it) fills at the stop with its label; else a cross from above fills at the close; else only the high and the flag move and the stop has not fallen; an exit sets the capital to the shares' value |
| `PriorSma.EntryRule` | technical-backtesting/scripts/sma_correct.py:120-124 | a position opens only on a bar with an SMA, flat, above it, after a bar that was below (None never counts), with the whole capital at the close, and always then |
| `PriorSma.NoEntryOnExitBar` | technical-backtesting/scripts/sma_correct.py:89-124 | a bar that closes a trade appends exactly that trade, stamped with the bar, and leaves the position flat; other bars leave the trades alone |
| `PriorSma.EntryStamp` | technical-backtesting/scripts/sma_correct.py:120-124 | a position held after a bar opened earlier or on this bar |
| `PriorSma.StepSane` | technical-backtesting/scripts/sma_correct.py:79-126 | with positive prices a bar never makes the position or the capital negative |
| `PriorSma.RunSane` | technical-backtesting/scripts/sma_correct.py:79-126 | with positive prices and capital `pos > 0` and `pos == 0` cover every state of the run |
| `PriorSma.FinalFlat` | technical-backtesting/scripts/sma_correct.py:128-133 | after the closing block the position is zero |
| `PriorSma.FinalCapital` | technical-backtesting/scripts/sma_correct.py:128-136 | the final capital is the start plus the completed pnl, and equally the start times the product of exit over entry |
| `PriorSma.PriorMeanNonEmpty` | technical-backtesting/scripts/sma_correct.py:68-70 | a date with an SMA has at least p earlier daily closes |
| `PriorSma.LastDayHasSma` | technical-backtesting/scripts/sma_correct.py:68-70 | once any date has an SMA the last bar's date has one too |
| `PriorSma.BuildSma` | technical-backtesting/scripts/sma_correct.py:58-70 | the daily closes and the loop compute exactly the prior-mean table of the joined bars |
| `PriorSmaScripts.WinPcts` | technical-backtesting/scripts/sma50_standard_output.py:151 | the wins are the positive pnl_pct values, and every trade with a positive pnl_pct is among them |
| `PriorSmaScripts.LossPcts` | technical-backtesting/scripts/sma50_standard_output.py:152 | the losses are the pnl_pct values at most zero, and every such trade is among them |
| `PriorSmaScripts.WinsAndLosses` | technical-backtesting/scripts/sma50_standard_output.py:151-152 | every trade is a win or a loss, never both |
| `PriorSmaScripts.WinRate` | technical-backtesting/scripts/sma50_standard_output.py:206 | the win rate lies in 0..100, is 0 without trades and is 100 exactly when every trade wins |
| `PriorSmaScripts.RoundedWinCount` | technical-backtesting/scripts/sma_correct.py:106-138 | the wins counted on pnl_pct rounded to d digits are at most the trades, and none exactly when no trade's pnl_pct exceeds half a unit of the last digit |
| `PriorSmaScripts.RoundedWinsAtMostWins` | technical-backtesting/scripts/sma_correct.py:106-138 | rounding the stored pnl_pct never adds a win |
| `PriorSmaScripts.RoundedWinRate` | technical-backtesting/scripts/sma_crossover_15m.py:141-186 | the win rate over the rounded pnl_pct lies between 0 and the exact win rate, and is 0 exactly when no trade clears half a unit of the last digit |
| `Core.MeanSigns` | technical-backtesting/scripts/sma50_standard_output.py:207-208 | the mean of positive values is positive; of values at least zero, at least zero; of values at most zero, at most zero |
| `PriorSmaScripts.AverageSigns` | technical-backtesting/scripts/sma50_standard_output.py:207-208 | the average win is positive and the average loss at most zero |
| `PriorSmaScripts.Ret` | technical-backtesting/scripts/sma_correct.py:136 | the reported return is positive exactly when the capital ends above 10000 |
| `PriorSmaScripts.CorrectTest` | technical-backtesting/scripts/sma_correct.py:66-145 | None exactly when no trade closed; otherwise n is the trade count, ret the return of the final capital rounded to one digit, the stop count at most n, and wr, counted on the pnl_pct rounded to one digit, at most the exact win rate and 0 exactly when no trade gains more than 0.05 percent |
| `PriorSmaScripts.RunCorrectTest` | technical-backtesting/scripts/sma_correct.py:66-145 | test_strategy, with its rounded pnl_pct and return, computes exactly `CorrectTest` |
| `PriorSmaScripts.SimpleTest` | technical-backtesting/scripts/sma_simple_15m.py:65-127 | with the high following the close: None exactly when no trade closed; otherwise n is the trade count, ret the return rounded to one digit and wr in 0..100 |
| `PriorSmaScripts.RunSimpleTest` | technical-backtesting/scripts/sma_simple_15m.py:65-127 | test_strategy computes exactly `SimpleTest` |
| `PriorSmaScripts.ReturnCompounds` | technical-backtesting/scripts/sma_correct.py:128-136 | with positive prices the capital is the start plus the trades' pnl and ret is 100 times the compounded growth less one |
| `PriorSmaScripts.YearsOfMeaning` | technical-backtesting/scripts/sma50_standard_output.py:217-221 | a year is a key exactly when a trade exits in it |
| `PriorSmaScripts.GroupStep` | technical-backtesting/scripts/sma50_standard_output.py:218-223 | one trade adds its pnl_dollar and one count to its exit year's entry |
| `PriorSmaScripts.GroupByYear` | technical-backtesting/scripts/sma50_standard_output.py:217-223 | the dict has exactly the exit years as keys, each with the sum of that year's pnl_dollar and its trade count |
| `PriorSmaScripts.NothingBefore` | technical-backtesting/scripts/sma50_standard_output.py:225-230 | before the first exit year no pnl has accrued |
| `PriorSmaScripts.ThroughIsBefore` | technical-backtesting/scripts/sma50_standard_output.py:226-230 | the pnl through a year is the pnl before the next one |
| `PriorSmaScripts.EmitStep` | technical-backtesting/scripts/sma50_standard_output.py:226-230 | taking the smallest year left emits its row, starting at the balance left by all earlier years |
| `PriorSmaScripts.EmitStart` | technical-backtesting/scripts/sma50_standard_output.py:225 | before the first year nothing is emitted and the balance is the starting capital |
| `PriorSmaScripts.EmitDone` | technical-backtesting/scripts/sma50_standard_output.py:226-230 | once no year is left the rows are the whole annual table |
| `PriorSmaScripts.RunningBalance` | technical-backtesting/scripts/sma50_standard_output.py:225-230 | the ascending-year loop computes exactly the annual table |
| `PriorSmaScripts.AnnualTable` | technical-backtesting/scripts/sma50_standard_output.py:217-230 | both loops together compute exactly the annual table |
| `PriorSmaScripts.AnnualChains` | technical-backtesting/scripts/sma50_standard_output.py:225-230 | the table has exactly the exit years; each row ends at its start plus the year's pnl_dollar; a year starts where the previous year of the table ended |
| `PriorSmaScripts.WinLoss` | technical-backtesting/scripts/sma50_standard_output.py:151-152 | the two comprehensions compute exactly `WinPcts` and `LossPcts` |
| `PriorSmaScripts.StandardOutput` | technical-backtesting/scripts/sma50_standard_output.py:45-230 | the script computes exactly `StandardReport` |
| `PriorSmaScripts.StandardFacts` | technical-backtesting/scripts/sma50_standard_output.py:126-230 | with positive prices the final capital is the start plus the pnl_dollar; alpha is the return less buy-and-hold's and positive exactly when the strategy ends above buy-and-hold's final; the wins and losses split the trades; the table is the annual table |
| `PriorSmaScripts.BuyAndHoldScales` | technical-backtesting/scripts/sma50_standard_output.py:148-193 | buy-and-hold's final is the starting capital scaled by last over first |
| `BestStrategy.ContextOf` | technical-backtesting/scripts/best_strategy_detail.py:44-58 | SMA 50 over the prior daily closes, a 7.5% fixed and a 15% trailing stop |
| `BestStrategy.ValueAt` | technical-backtesting/scripts/best_strategy_detail.py:74 | the current value is the capital when flat and the position at TQQQ's close otherwise |
| `BestStrategy.MarkYear` | technical-backtesting/scripts/best_strategy_detail.py:75-77 | a new year starts and ends at the value with no trades; a known year keeps its start and ends at the value; no other year changes |
| `BestStrategy.CountExit` | technical-backtesting/scripts/best_strategy_detail.py:91 | an exit adds one to its year's counter and nothing else |
| `BestStrategy.Step` | technical-backtesting/scripts/best_strategy_detail.py:65-107 | one bar is the shared crossover step plus the yearly bookkeeping |
| `BestStrategy.Run` | technical-backtesting/scripts/best_strategy_detail.py:65 | the trades and position after the loop are the shared loop's |
| `BestStrategy.Finish` | technical-backtesting/scripts/best_strategy_detail.py:109-114 | a long position closes at the last close as the shared closing block does; the KeyError of an unrecorded last year is None; a flat ending changes nothing |
| `BestStrategy.ProcessBar` | technical-backtesting/scripts/best_strategy_detail.py:66-107 | one pass of the loop body computes exactly `Step` |
| `BestStrategy.Simulate` | technical-backtesting/scripts/best_strategy_detail.py:65-107 | the loop computes exactly `Run` |
| `BestStrategy.RunDetail` | technical-backtesting/scripts/best_strategy_detail.py:44-114 | the script computes exactly `Backtest` |
| `BestStrategy.OfYearAppend` | technical-backtesting/scripts/best_strategy_detail.py:91 | one more trade adds one to the count of its exit year only |
| `BestStrategy.NoRowNoTrades` | technical-backtesting/scripts/best_strategy_detail.py:75-77 | a year without a row has no trades |
| `BestStrategy.StepTallied` | technical-backtesting/scripts/best_strategy_detail.py:65-107 | one bar keeps each year's counter equal to its number of exits, and records its own year |
| `BestStrategy.RunTallied` | technical-backtesting/scripts/best_strategy_detail.py:65-107 | over the loop each year's counter is its number of exits, and the last processed bar's year has a row |
| `BestStrategy.Counted` | technical-backtesting/scripts/best_strategy_detail.py:109-114 | on joined bars in date order the closing block never hits a missing year, and afterwards every year's counter is its number of exits, the final one included |
| `BestStrategy.MarkRule` | technical-backtesting/scripts/best_strategy_detail.py:73-77 | on a processed bar its year's end becomes the bar's value, its start is that value only for a new year, and no other year changes |
| `Crossover15m.Begin` | technical-backtesting/scripts/sma_crossover_15m.py:84-93 | the run starts flat with the full capital, no trades and no remembered day |
| `Crossover15m.Exits` | technical-backtesting/scripts/sma_crossover_15m.py:111-146 | the exit block keeps the ledger consistent (capital, position and trades agree with the start) |
| `Crossover15m.Enter` | technical-backtesting/scripts/sma_crossover_15m.py:159-163 | an entry buys shares for all the capital at the open, records the open and the bar, sets the high to the bar's high and leaves the trades alone |
| `Crossover15m.Step` | technical-backtesting/scripts/sma_crossover_15m.py:95-169 | one pass of the loop keeps the ledger consistent |
| `Crossover15m.Run` | technical-backtesting/scripts/sma_crossover_15m.py:95-169 | the loop over the joined bars keeps the ledger consistent |
| `Crossover15m.Simulation` | technical-backtesting/scripts/sma_crossover_15m.py:95-181 | after the closing block the ledger is consistent and nothing is held |
| `Crossover15m.Backtest` | technical-backtesting/scripts/sma_crossover_15m.py:66-194 | no result exactly when fewer than 1000 joined bars or no trades; otherwise the number of trades, the return of the final capital rounded to two digits, and a win rate over the pnl rounded to two digits, at most the exact win rate and 0 exactly when no trade gains more than 0.005 percent |
| `Crossover15m.ExitBlock` | technical-backtesting/scripts/sma_crossover_15m.py:110-146 | the exit block of a long bar yields exactly `Exits`: the raised high, then a stop fill at the stop price, else an SMA-cross exit at the open on a new date |
| `Crossover15m.EntryBlock` | technical-backtesting/scripts/sma_crossover_15m.py:148-163 | the entry block buys at the open exactly when flat on a new date after a cross from below, and otherwise leaves the position alone |
| `Crossover15m.ProcessBar` | technical-backtesting/scripts/sma_crossover_15m.py:95-169 | the loop body computes the step of the bar |
| `Crossover15m.Simulate` | technical-backtesting/scripts/sma_crossover_15m.py:95-169 | the loop computes the run over the joined bars |
| `Crossover15m.ComputeDailySma` | technical-backtesting/scripts/sma_crossover_15m.py:43-64 | the two tables are the daily SMA over the prior closes and the last close of each date |
| `Crossover15m.RunBacktest` | technical-backtesting/scripts/sma_crossover_15m.py:66-194 | the whole procedure, with its rounded pnl and return, computes the backtest result |
| `Crossover15m.SkipRule` | technical-backtesting/scripts/sma_crossover_15m.py:100-102 | a bar whose date has no SMA changes nothing, not even the remembered day; any other bar makes its date the remembered day |
| `Crossover15m.ExitRule` | technical-backtesting/scripts/sma_crossover_15m.py:111-146 | a low at or below the hybrid stop closes at the stop with reason stop; otherwise at the first bar of a new date a close below yesterday's SMA closes at the open with reason sma; otherwise the position is kept with the higher high and a stop that has not fallen |
| `Crossover15m.EntryRule` | technical-backtesting/scripts/sma_crossover_15m.py:149-163 | when flat after the exit block, at the first bar of a new date and on a confirmed cross from below, the step buys at the open with all the capital; in every other case the entry block changes nothing |
| `Crossover15m.RememberedAtFirstBar` | technical-backtesting/scripts/sma_crossover_15m.py:166-169 | the remembered close and SMA belong to the first processed bar of the remembered date |
| `Crossover15m.StepSane` | technical-backtesting/scripts/sma_crossover_15m.py:95-169 | with positive prices one pass never leaves a negative position or capital |
| `Crossover15m.RunSane` | technical-backtesting/scripts/sma_crossover_15m.py:95-169 | with positive prices and starting capital the loop never leaves a negative position or capital |
| `Crossover15m.FinalFlat` | technical-backtesting/scripts/sma_crossover_15m.py:172-181 | after the closing block nothing is held |
| `Crossover15m.FinalCapital` | technical-backtesting/scripts/sma_crossover_15m.py:172-194 | the final capital is the start plus the trades' pnl, and the reported return is 100 times the growth minus one |
| `CrossoverTest.Signals` | technical-backtesting/scripts/sma_crossover_test.py:45-55 | the QQQ closes, one per bar in order |
| `CrossoverTest.Enter` | technical-backtesting/scripts/sma_crossover_test.py:107-112 | an entry buys shares for all the capital at the close, records the close and the bar, sets the high to the bar's high and leaves the trades alone |
| `CrossoverTest.Step` | technical-backtesting/scripts/sma_crossover_test.py:65-112 | one pass of the loop keeps the ledger consistent |
| `CrossoverTest.RunTo` | technical-backtesting/scripts/sma_crossover_test.py:65-112 | the loop over indices p + 1 up to any k keeps the ledger consistent |
| `CrossoverTest.Simulation` | technical-backtesting/scripts/sma_crossover_test.py:65-123 | after the closing block the ledger is consistent and nothing is held |
| `CrossoverTest.Backtest` | technical-backtesting/scripts/sma_crossover_test.py:45-136 | no result on fewer than p + 50 bars; otherwise no result exactly when there are no trades, and a result gives the number of trades, the return rounded to two digits and a win rate over the pnl rounded to two digits, at most the exact win rate and 0 exactly when no trade gains more than 0.005 percent |
| `CrossoverTest.ProcessIndex` | technical-backtesting/scripts/sma_crossover_test.py:66-112 | the loop body computes the step at the index |
| `CrossoverTest.Simulate` | technical-backtesting/scripts/sma_crossover_test.py:65-112 | the loop computes the run over all indices |
| `CrossoverTest.RunBacktest` | technical-backtesting/scripts/sma_crossover_test.py:45-136 | the whole procedure, with its rounded pnl and return, computes the backtest result |
| `CrossoverTest.SmaWithinWindow` | technical-backtesting/scripts/sma_crossover_test.py:55-57 | the SMA at index i lies between any bounds on the p closes ending at i |
| `CrossoverTest.SmaSlides` | technical-backtesting/scripts/sma_crossover_test.py:55-57 | moving on by one bar the window sum gains the new close and loses the one p bars back |
| `CrossoverTest.ExitRule` | technical-backtesting/scripts/sma_crossover_test.py:70-104 | a low at or below the hybrid stop closes at the stop with reason stop, before the SMA; otherwise a strict cross down closes at the close with reason sma; otherwise the position is kept with the higher high and a stop that has not fallen |
| `CrossoverTest.EntryRule` | technical-backtesting/scripts/sma_crossover_test.py:106-112 | from flat the trades are unchanged; a strict cross up buys at the close with all the capital, and without one nothing changes |
| `CrossoverTest.StepSane` | technical-backtesting/scripts/sma_crossover_test.py:65-112 | with positive prices one pass never leaves a negative position or capital |
| `CrossoverTest.RunSane` | technical-backtesting/scripts/sma_crossover_test.py:65-112 | with positive prices and starting capital the loop never leaves a negative position or capital |
| `CrossoverTest.FinalFlat` | technical-backtesting/scripts/sma_crossover_test.py:114-123 | after the closing block nothing is held |
| `CrossoverTest.FinalCapital` | technical-backtesting/scripts/sma_crossover_test.py:114-127 | the final capital is the start plus the trades' pnl, and the reported return is 100 times the growth minus one |
| `SlTpSim.ReasonFor` | technical-backtesting/scripts/massive_grid_search_v3.py:168-174 | an exit reason exists exactly when the return is at or below minus the stop loss, at or above the take profit, or the bar sells; it is never the end-of-data reason |
| `SlTpSim.Step` | technical-backtesting/scripts/massive_grid_search_v3.py:163-181 | one bar keeps the money either all in cash or all in shares, with the capital plus the trades' pnl equal to the start |
| `SlTpSim.Run` | technical-backtesting/scripts/massive_grid_search_v3.py:163-181 | the loop over any prefix of the bars keeps that accounting |
| `SlTpSim.Finish` | technical-backtesting/scripts/massive_grid_search_v3.py:183-192 | after the closing block nothing is held, the capital is positive and equals the start plus the trades' pnl, and exactly one trade was added when a position was open |
| `SlTpSim.Simulate` | technical-backtesting/scripts/massive_grid_search_v3.py:155-192 | the loop and the closing block compute the capital and the trades of the simulation |
| `SlTpSim.ChainAppend` | technical-backtesting/scripts/massive_grid_search_v3.py:163-181 | a sound trade entered after the last exit, with no buy ignored in between, extends a valid trade list |
| `SlTpSim.RunTracks` | technical-backtesting/scripts/massive_grid_search_v3.py:163-181 | after every prefix the trades are a valid chain and an open position entered on the first buy after the last exit and has met no exit since |
| `SlTpSim.StepTracks` | technical-backtesting/scripts/massive_grid_search_v3.py:163-181 | one bar preserves that agreement with the rules |
| `SlTpSim.ExitTracks` | technical-backtesting/scripts/massive_grid_search_v3.py:166-176 | a held bar meeting the exit rule records a sound trade at its close with the reason of the rule |
| `SlTpSim.EnterTracks` | technical-backtesting/scripts/massive_grid_search_v3.py:177-181 | a flat bar with a buy signal enters at its close with all the capital |
| `SlTpSim.FreeFromAtLeast` | technical-backtesting/scripts/massive_grid_search_v3.py:163-181 | the next entry is never allowed before the first bar of the run |
| `SlTpSim.SimulationChain` | technical-backtesting/scripts/massive_grid_search_v3.py:155-195 | every trade of a whole simulation is a sound round trip, they follow each other in bar order, no buy is passed over while flat except on an exit bar, and only the last one can be the end-of-data close |
| `SlTpSim.SimulationSettles` | technical-backtesting/scripts/massive_grid_search_v3.py:169-170 | the final capital is the initial capital plus the sum of every trade's pnl, and it is positive |
| `SlTpSim.WinByPnlOrReturn` | technical-backtesting/scripts/massive_grid_search_v3.py:167-173 | a trade wins by its dollar pnl exactly when it wins by its percentage return |
| `SlTpSim.RunSignsAgree` | technical-backtesting/scripts/massive_grid_search_v3.py:166-176 | after every prefix of the loop each recorded trade has pnl > 0 exactly when its pnl_pct > 0 |
| `SlTpSim.SimulationSignsAgree` | technical-backtesting/scripts/massive_grid_search_v3.py:166-190 | the same for every trade of a simulation, the end-of-data close included |
| `SlTpSim.SolventAppend` | technical-backtesting/scripts/massive_grid_search_v3.py:211-215 | a trade leaving a positive balance keeps every running balance positive |
| `SlTpSim.RunSolvent` | technical-backtesting/scripts/massive_grid_search_v3.py:163-181 | after every prefix of the loop every running balance of the trade list is positive |
| `SlTpSim.SimulationSolvent` | technical-backtesting/scripts/massive_grid_search_v3.py:211-215 | every balance along the equity curve of a simulation is positive |
| `GridMetrics.Pnls` | technical-backtesting/scripts/massive_grid_search_v3.py:199-200 | the dollar pnl of each trade, in order |
| `GridMetrics.WinCount` | technical-backtesting/scripts/massive_grid_search_v3.py:199 | at most the number of trades, and zero exactly when no pnl is positive |
| `GridMetrics.LoseCount` | technical-backtesting/scripts/massive_grid_search_v3.py:200 | at most the number of trades, and zero exactly when every pnl is positive |
| `GridMetrics.CountsSplit` | technical-backtesting/scripts/massive_grid_search_v3.py:199-200 | every trade is either a winner or a loser |
| `GridMetrics.GrossProfit` | technical-backtesting/scripts/massive_grid_search_v3.py:206 | the winners' sum is non-negative, and zero exactly when there is no winner |
| `GridMetrics.LossTotal` | technical-backtesting/scripts/massive_grid_search_v3.py:207 | the losers' sum is never positive |
| `GridMetrics.StrictLossTotal` | technical-backtesting/scripts/fast_grid_search.py:127 | the sum of the negative pnls is never positive, and zero exactly when no pnl is negative |
| `GridMetrics.PnlSplits` | technical-backtesting/scripts/massive_grid_search_v3.py:206-207 | the winners' and the losers' sums add up to the whole pnl |
| `GridMetrics.WinRate` | technical-backtesting/scripts/massive_grid_search_v3.py:202 | a percentage within 0..100, zero exactly when no trade wins and 100 exactly when every trade wins |
| `GridMetrics.GuardedProfitFactor` | technical-backtesting/scripts/massive_grid_search_v3.py:206-208 | the profit factor with a fallback denominator is never negative, and zero exactly when no trade wins |
| `GridMetrics.FlooredProfitFactor` | technical-backtesting/scripts/chunked_grid_search.py:143 | the profit factor over a denominator floored at 0.01 is never negative, and zero exactly when no trade wins |
| `GridMetrics.StrictProfitFactor` | technical-backtesting/scripts/fast_grid_search.py:126-128 | the profit factor over the negative pnls or 0.01 is never negative, and zero exactly when no trade wins |
| `GridMetrics.UnguardedProfitFactor` | technical-backtesting/scripts/qqq_tqqq_massive_test.py:270-272 | the quotient is undefined exactly when there are losing trades and their pnl sums to zero; otherwise it is non-negative and zero exactly when no trade wins |
| `GridMetrics.BreakEvenTradeDividesByZero` | technical-backtesting/scripts/qqq_tqqq_massive_test.py:264-272 | a winner beside one trade closed at its entry price makes that profit factor divide by zero |
| `GridMetrics.CheckedProfitFactor` | technical-backtesting/scripts/qqq_tqqq_massive_test.py:270-272 | the corrected profit factor is never negative, zero exactly when no trade wins, and equal to the script's wherever the script's is defined |
| `GridMetrics.Curve` | technical-backtesting/scripts/massive_grid_search_v3.py:211-215 | the curve starts at the initial capital and each later point adds one trade's pnl |
| `GridMetrics.CurveSums` | technical-backtesting/scripts/massive_grid_search_v3.py:211-215 | point k of the curve is the initial capital plus the pnl of the first k trades |
| `GridMetrics.EquityCurve` | technical-backtesting/scripts/massive_grid_search_v3.py:211-215 | the appending loop computes the equity curve |
| `GridMetrics.Peak` | technical-backtesting/scripts/massive_grid_search_v3.py:217-221 | the running peak is at least the first and the current point, bounds every point so far and is one of them |
| `GridMetrics.DrawdownAt` | technical-backtesting/scripts/massive_grid_search_v3.py:222 | the fall from the running peak is never negative, and at most 100 while the value is not negative |
| `GridMetrics.MaxDrawdown` | technical-backtesting/scripts/massive_grid_search_v3.py:217-224 | the drawdown loop computes the maximum drawdown of the curve |
| `GridMetrics.MaxDrawdownBounds` | technical-backtesting/scripts/massive_grid_search_v3.py:217-224 | the maximum drawdown is non-negative, bounds every point's drawdown, is zero or attained at some point, and is at most 100 on a curve that never goes negative |
| `GridMetrics.NoDrawdownWhenRising` | technical-backtesting/scripts/massive_grid_search_v3.py:217-224 | a curve that never falls has no drawdown |
| `GridMetrics.RisingPeak` | technical-backtesting/scripts/massive_grid_search_v3.py:217-221 | on a curve that never falls the running peak is the current point |
| `GridMetrics.PnlsTotal` | technical-backtesting/scripts/massive_grid_search_v3.py:169-170 | the pnl column sums to the trades' total pnl |
| `GridMetrics.SimulationDrawdownBounded` | technical-backtesting/scripts/massive_grid_search_v3.py:211-224 | the maximum drawdown of a simulated run lies between 0 and 100 |
| `GridSignals.GridRule` | technical-backtesting/scripts/massive_grid_search_v3.py:140-151 | a buy needs an RSI or a MACD buy and a sell needs an RSI or a MACD sell, whatever the strategy name |
| `GridSignals.ChunkedRule` | technical-backtesting/scripts/chunked_grid_search.py:107-113 | a buy needs an RSI or a MACD buy and a sell needs an RSI or a MACD sell |
| `GridSignals.PairRule` | technical-backtesting/scripts/qqq_tqqq_chunked.py:93-100 | a buy needs an RSI or a MACD buy and a sell needs an RSI or a MACD sell |
| `GridSignals.ComboRule` | technical-backtesting/scripts/complete_test.py:77-82 | a buy needs an RSI or a MACD buy and a sell needs an RSI or a MACD sell |
| `GridSignals.WideRule` | technical-backtesting/scripts/qqq_tqqq_massive_test.py:160-192 | a buy needs a buy vote of RSI, MACD, Bollinger or EMA, and a sell needs a sell vote of one of them |
| `GridSignals.GridRuleOrder` | technical-backtesting/scripts/massive_grid_search_v3.py:140-151 | a combo buy is both single buys, either single buy is an either buy, combo and either sell alike, and an unknown name is the either strategy |
| `GridSignals.ChunkedRuleOrder` | technical-backtesting/scripts/chunked_grid_search.py:107-113 | any name other than the two single ones buys exactly on both buys and sells on either sell |
| `GridSignals.TablesAgree` | technical-backtesting/scripts/qqq_tqqq_chunked.py:93-100 | the pair table matches the grid table row for row, and the combo table matches the chunked table |
| `GridSignals.WideRuleOrder` | technical-backtesting/scripts/qqq_tqqq_massive_test.py:160-192 | the stricter combinations buy only when the looser ones do; all_combined buys exactly on a single RSI, MACD or Bollinger buy with volume confirmation, and sells as triple does |
| `GridSignals.RsiVote` | technical-backtesting/scripts/massive_grid_search_v3.py:135-136 | with the oversold level at or below the overbought level no bar both buys and sells |
| `GridSignals.Before` | technical-backtesting/scripts/fast_grid_search.py:89-90 | the previous index lies in range and is the index before for every bar past the first |
| `GridSignals.MacdVote` | technical-backtesting/scripts/massive_grid_search_v3.py:137-138 | a MACD cross never both buys and sells; a buy has the line above the signal line and a sell below |
| `GridSignals.RollMattersOnlyAtZero` | technical-backtesting/scripts/fast_grid_search.py:89-90 | past the first bar the rolled and the shifted previous value give the same vote |
| `GridSignals.MacdCrossMeaning` | technical-backtesting/scripts/massive_grid_search_v3.py:137-138 | a buy is exactly a move from at or below the signal line to above it, and a sell the mirror |
| `GridSignals.VotesOf` | technical-backtesting/scripts/massive_grid_search_v3.py:135-138 | one vote per bar, each the RSI and MACD votes of that bar |
| `GridSignals.Keep` | technical-backtesting/scripts/massive_grid_search_v3.py:128 | the kept rows are exactly the rows that pass, never more than the input |
| `GridSignals.KeepKeepsOrder` | technical-backtesting/scripts/massive_grid_search_v3.py:128 | each kept row comes from a position of the input with exactly as many kept rows before it |
| `GridSignals.KeepPreserves` | technical-backtesting/scripts/massive_grid_search_v3.py:128 | a property of every row holds of every kept row |
| `GridSignals.DropNa` | technical-backtesting/scripts/massive_grid_search_v3.py:128 | the remaining rows are exactly the complete ones |
| `GridSignals.Frame` | technical-backtesting/scripts/massive_grid_search_v3.py:123-126 | row i carries close i and the indicator values at i |
| `GridSignals.WideVotesOf` | technical-backtesting/scripts/qqq_tqqq_massive_test.py:137-157 | no MACD, EMA or Bollinger vote both buys and sells; volume confirms above 1.2, and %B buys below 0.1 and sells above 0.9 |
| `GridSignals.RollingRsiAt` | technical-backtesting/scripts/massive_grid_search_v3.py:100-105 | a present RSI lies in 0..100; with a positive average loss it is the capped formula; it is missing exactly on a zero average loss, in the NaN mode or when the gain is zero as well |
| `GridSignals.PandasRsi` | technical-backtesting/scripts/massive_grid_search_v3.py:100-105 | the first p - 1 bars have no RSI and every present value lies in 0..100 |
| `GridSignals.ZeroLossModes` | technical-backtesting/scripts/massive_grid_search.py:95-100 | where the window lost something both divisions agree; the NaN mode is missing exactly on a zero average loss, the other only when the gain is zero too |
| `GridSignals.Alpha` | technical-backtesting/scripts/qqq_tqqq_efficient.py:85-87 | the weight 2 / (span + 1) lies in (0, 1] for every span of at least 1 |
| `GridSignals.Blended` | technical-backtesting/scripts/qqq_tqqq_efficient.py:93-95 | one step of the recurrence lies between the new value and the previous average |
| `GridSignals.Ema` | technical-backtesting/scripts/qqq_tqqq_efficient.py:89-101 | each entry is the recurrence started at the first value |
| `GridSignals.EmaWithinRange` | technical-backtesting/scripts/qqq_tqqq_efficient.py:93-95 | the EMA never leaves the range of the values it has seen |
| `GridSignals.FastSlowEma` | technical-backtesting/scripts/qqq_tqqq_efficient.py:89-95 | the loop fills both arrays with the fast and the slow EMA |
| `GridSignals.SignalLine` | technical-backtesting/scripts/qqq_tqqq_efficient.py:98-101 | the loop fills the signal array with the EMA of the MACD line |
| `GridSignals.Macd` | technical-backtesting/scripts/qqq_tqqq_efficient.py:84-101 | the loops compute the MACD line and its signal line |
| `GridSignals.FlatSeriesHasNoMacd` | technical-backtesting/scripts/qqq_tqqq_efficient.py:89-97 | a flat price series has a MACD line of zero |
| `GridSignals.Deltas` | technical-backtesting/scripts/fast_grid_search.py:66 | the first delta is zero and each later one is the change from the previous close |
| `GridSignals.Gains` | technical-backtesting/scripts/fast_grid_search.py:67 | each gain is the positive delta or zero |
| `GridSignals.Losses` | technical-backtesting/scripts/fast_grid_search.py:68 | each loss is the negated negative delta or zero |
| `GridSignals.TrailingMeanNonNegative` | technical-backtesting/scripts/fast_grid_search.py:70-71 | the mean of non-negative values is non-negative |
| `GridSignals.PatchedRsi` | technical-backtesting/scripts/fast_grid_search.py:73-75 | the RSI with a zero loss replaced by 1 lies in 0..100, never reaching 100 |
| `GridSignals.PaddedRsi` | technical-backtesting/scripts/fast_grid_search.py:70-79 | the first p - 1 bars read 50 and every value lies in 0..100 |
| `GridSignals.RisingSeriesReadsOversold` | technical-backtesting/scripts/fast_grid_search.py:70-79 | on a rising series the patched RSI reads 20 and votes buy at the oversold level 25 |
| `GridSignals.CappedRsi` | technical-backtesting/scripts/qqq_tqqq_efficient.py:80-82 | the capped RSI lies in 0..100, reads above 99 without losses and equals the patched formula otherwise |
| `GridSignals.CorrectedPaddedRsi` | technical-backtesting/scripts/fast_grid_search.py:70-79 | the padded RSI on the capped formula reads 50 for the first p - 1 bars and lies in 0..100 |
| `GridSignals.NoFallNoOversold` | technical-backtesting/scripts/fast_grid_search.py:70-79 | with the cap, a window in which the price never falls reads above 99 and never votes oversold |
| `GridSignals.CentredMeanNonNegative` | technical-backtesting/scripts/qqq_tqqq_efficient.py:77-78 | the centred window mean of non-negative values is non-negative |
| `GridSignals.PastMeanNonNegative` | technical-backtesting/scripts/qqq_tqqq_efficient.py:77-78 | the causal window mean of non-negative values is non-negative |
| `GridSignals.CentredRsi` | technical-backtesting/scripts/qqq_tqqq_efficient.py:72-82 | one RSI per bar, each in 0..100, read over the window centred on the bar |
| `GridSignals.PastRsi` | technical-backtesting/scripts/qqq_tqqq_efficient.py:72-82 | one RSI per bar, each in 0..100, read over the window ending at the bar |
| `GridSignals.CentredRsiSeesTheFuture` | technical-backtesting/scripts/qqq_tqqq_efficient.py:77-78 | two series equal up to bar 1 give different centred RSIs at bar 1 |
| `GridSignals.PastRsiIsCausal` | technical-backtesting/scripts/qqq_tqqq_efficient.py:72-82 | the causal RSI at bar i depends on the closes up to bar i only |
| `GridScripts.ProfitFactorOf` | technical-backtesting/scripts/massive_grid_search_v3.py:206-208 | no profit factor exactly for a script that reports none, or for the unguarded rule on losers summing to zero; otherwise it is non-negative and zero exactly when no trade wins |
| `GridScripts.EvaluationFacts` | technical-backtesting/scripts/massive_grid_search_v3.py:184-224 | no report exactly when there are too few trades; a report gives the trade count, a positive final capital equal to the start plus the pnl, a rounded return not below -100, a win rate within 0..100, a profit factor only for a script that computes one, a non-negative drawdown exactly when the script reports one, at most 100 when the curve runs over the exact pnl, and avg_win / avg_loss exactly when the script reports them, bounded as `AverageBounds` states |
| `GridScripts.StoredValues` | technical-backtesting/scripts/qqq_tqqq_efficient.py:137 | one stored value per trade: the pnl, the pnl rounded, or the percentage return rounded |
| `GridScripts.StoredWins` | technical-backtesting/scripts/qqq_tqqq_efficient.py:137-159 | a stored value is positive exactly when the trade's pnl or percentage return exceeds half a unit of the last digit kept |
| `GridScripts.NoStoredWins` | technical-backtesting/scripts/qqq_tqqq_massive_test.py:229-263 | no win is counted exactly when no trade clears that threshold |
| `GridScripts.StoredDrawdownBounded` | technical-backtesting/scripts/massive_grid_search_v3.py:210-224 | the drawdown of the stored-value curve is never negative, and at most 100 when the curve runs over the exact pnl |
| `GridScripts.ReturnAtLeastLoss` | technical-backtesting/scripts/qqq_tqqq_chunked.py:127 | with a positive final capital the rounded return is not below -100 |
| `GridScripts.WinnerPcts` | technical-backtesting/scripts/massive_grid_search_v3.py:199-203 | one percentage per winning trade (stored value > 0), each the pnl_pct of such a trade |
| `GridScripts.LoserPcts` | technical-backtesting/scripts/massive_grid_search_v3.py:200-204 | one percentage per losing trade (stored value <= 0), each the pnl_pct of such a trade |
| `GridScripts.PctSigns` | technical-backtesting/scripts/qqq_tqqq_massive_test.py:222-230 | a trade stored as a win has a pnl_pct at least zero (its rounded form included), and over the exact pnl and pnl_pct wins by one exactly when it wins by the other |
| `GridScripts.AverageBounds` | technical-backtesting/scripts/massive_grid_search_v3.py:203-204 | avg_win is at least zero, and 0 without winners; avg_loss is 0 without losers; over the exact pnl and pnl_pct avg_win is positive exactly when some trade won and avg_loss is at most zero |
| `GridScripts.ReportSensible` | technical-backtesting/scripts/massive_grid_search_v3.py:184-224 | enough trades and a positive final capital make a sensible report |
| `GridScripts.Evaluate` | technical-backtesting/scripts/massive_grid_search_v3.py:155-224 | the simulation loop and the metric loops, over the values the script stores, compute the report |
| `GridScripts.Decide` | technical-backtesting/scripts/massive_grid_search_v3.py:140-151 | a buy needs an RSI or a MACD buy, a sell an RSI or a MACD sell, and the MACD-only table follows the MACD votes alone |
| `GridScripts.SignalsOf` | technical-backtesting/scripts/massive_grid_search_v3.py:140-151 | one signal per bar, each the table's decision on that bar's votes |
| `GridScripts.LimitsOf` | technical-backtesting/scripts/massive_grid_search_v3.py:160-161 | the stop loss and take profit are the percentages divided by 100 |
| `GridScripts.PandasFrame` | technical-backtesting/scripts/massive_grid_search_v3.py:122-126 | one row per close, carrying that close |
| `GridScripts.RowSeries` | technical-backtesting/scripts/massive_grid_search_v3.py:133-151 | the traded closes are those of the remaining rows, with one buy and one sell signal each |
| `GridScripts.KeptPositive` | technical-backtesting/scripts/massive_grid_search_v3.py:128 | dropping incomplete rows keeps every close positive |
| `GridScripts.PandasBacktest` | technical-backtesting/scripts/massive_grid_search_v3.py:115-235 | no result without data, with fewer than 100 rows, or with fewer than 50 rows after dropna; every result is sensible |
| `GridScripts.MassiveV3Backtest` | technical-backtesting/scripts/massive_grid_search_v3.py:115-235 | no result without data or with fewer than 100 rows; every result is sensible with the 0.001 loss fallback, a drawdown, and avg_win / avg_loss over the exact pnl_pct (avg_win positive exactly when the win rate is, avg_loss at most zero) |
| `GridScripts.MassiveBacktest` | technical-backtesting/scripts/massive_grid_search.py:110-237 | no result without data or with fewer than 100 rows; every result is sensible with the loss fallback of 1, a drawdown, and avg_win / avg_loss over the exact pnl_pct (avg_win positive exactly when the win rate is, avg_loss at most zero) |
| `GridScripts.ChunkedBacktest` | technical-backtesting/scripts/chunked_grid_search.py:91-161 | no result without data or with fewer than 100 rows; every result is sensible with the floored profit factor and a drawdown |
| `GridScripts.RunPandas` | technical-backtesting/scripts/massive_grid_search_v3.py:115-235 | the pandas run computes the backtest result |
| `GridScripts.RsiOf` | technical-backtesting/scripts/qqq_tqqq_efficient.py:72-82 | one RSI per close, each in 0..100 |
| `GridScripts.PairSignals` | technical-backtesting/scripts/qqq_tqqq_efficient.py:71-119 | one signal per bar of the signal symbol |
| `GridScripts.PairBacktest` | technical-backtesting/scripts/qqq_tqqq_efficient.py:64-166 | no result with fewer than 200 bars; every result is sensible |
| `GridScripts.CompleteParams` | technical-backtesting/scripts/complete_test.py:54-57 | the RSI period is 14 and the levels are 30 and 70 |
| `GridScripts.EfficientBacktest` | technical-backtesting/scripts/qqq_tqqq_efficient.py:64-166 | with the script's centred RSI and pnl_pct rounded to two digits: no result with fewer than 200 bars; every result is sensible with at least one trade |
| `GridScripts.IntendedEfficientBacktest` | technical-backtesting/scripts/qqq_tqqq_efficient.py:64-166 | the same backtest with the causal RSI: no result with fewer than 200 bars; every result is sensible with at least one trade |
| `GridScripts.PairChunkedBacktest` | technical-backtesting/scripts/qqq_tqqq_chunked.py:60-127 | with the centred RSI, pnl stored to one digit and the return rounded to one digit: no result with fewer than 200 bars; every result is sensible with at least three trades |
| `GridScripts.CompleteBacktest` | technical-backtesting/scripts/complete_test.py:46-108 | with the centred RSI and pnl and return rounded to two digits: no result with fewer than 200 bars; every result is sensible with at least five trades |
| `GridScripts.MacdDeepBacktest` | technical-backtesting/scripts/macd_deep_test.py:44-88 | with the pnl and the return rounded to one digit: no result with fewer than 200 bars; every result is sensible with at least five trades |
| `GridScripts.MacdTableIgnoresRsi` | technical-backtesting/scripts/macd_deep_test.py:44-88 | the MACD-only signals do not depend on the RSI period, the levels or the RSI window |
| `GridScripts.RunPair` | technical-backtesting/scripts/qqq_tqqq_efficient.py:64-166 | the two-symbol run computes the backtest result |
| `GridScripts.FastSignals` | technical-backtesting/scripts/fast_grid_search.py:66-100 | one signal per close, under either zero-loss fix of the padded RSI |
| `GridScripts.FastRsi` | technical-backtesting/scripts/fast_grid_search.py:70-79 | one RSI per close, each in 0..100 |
| `GridScripts.FastWith` | technical-backtesting/scripts/fast_grid_search.py:57-135 | no result without data or with fewer than 100 rows; every result is sensible with the strict profit factor |
| `GridScripts.FastBacktest` | technical-backtesting/scripts/fast_grid_search.py:57-135 | with the script's patched RSI: no result without data or with fewer than 100 rows; every result is sensible with the strict profit factor |
| `GridScripts.IntendedFastBacktest` | technical-backtesting/scripts/fast_grid_search.py:57-135 | the same backtest with the capped RSI: no result without data or with fewer than 100 rows; every result is sensible |
| `GridScripts.RunFast` | technical-backtesting/scripts/fast_grid_search.py:57-135 | the run, with the patched RSI, computes the backtest result |
| `GridScripts.QqqCloses` | technical-backtesting/scripts/qqq_tqqq_massive_test.py:73-76 | the signal symbol's closes, in order |
| `GridScripts.ColumnsOf` | technical-backtesting/scripts/qqq_tqqq_massive_test.py:73-107 | every indicator column has one entry per bar |
| `GridScripts.Join` | technical-backtesting/scripts/qqq_tqqq_massive_test.py:112-124 | the inner join keeps at most the bars it reads, only positive traded closes, and every bar whose timestamp the traded symbol has |
| `GridScripts.TradedCloses` | technical-backtesting/scripts/qqq_tqqq_massive_test.py:206-210 | the traded symbol's closes of the joined rows, in order |
| `GridScripts.WideSeries` | technical-backtesting/scripts/qqq_tqqq_massive_test.py:131-192 | the traded closes of the remaining rows, with each bar's buy and sell from the strategy table |
| `GridScripts.JoinedPositive` | technical-backtesting/scripts/qqq_tqqq_massive_test.py:124-126 | the joined complete rows carry positive traded closes |
| `GridScripts.QqqMassiveBacktest` | technical-backtesting/scripts/qqq_tqqq_massive_test.py:109-298 | with the pnl stored to the cent and the profit factor divided by the bare loss sum: no result with fewer than 200 signal bars or fewer than 100 joined complete rows; every result is sensible, a missing profit factor being the undefined quotient, with a drawdown and with avg_win / avg_loss over the pnl_pct rounded to two digits (avg_win at least zero, and 0 without winners) |
| `GridScripts.JoinedBacktest` | technical-backtesting/scripts/qqq_tqqq_massive_test.py:109-298 | no result with fewer than 200 signal bars or fewer than 100 joined complete rows; every result is sensible under the configuration |
| `GridScripts.IntendedQqqMassiveBacktest` | technical-backtesting/scripts/qqq_tqqq_massive_test.py:109-298 | with the floored loss sum: no result with fewer than 200 signal bars; every result is sensible and has a profit factor |
| `GridScripts.RunQqqMassive` | technical-backtesting/scripts/qqq_tqqq_massive_test.py:109-298 | the run, with its rounded pnl and unguarded profit factor, computes the backtest result |
| `GridMain.ValidCombos` | technical-backtesting/scripts/massive_grid_search_v3.py:262 | the kept combinations are exactly those with the fast MACD span below the slow one |
| `GridMain.Cells` | technical-backtesting/scripts/complete_test.py:146-150 | one combination per tail, each with the given pair of spans |
| `GridMain.RowMembers` | technical-backtesting/scripts/complete_test.py:144-150 | a row holds exactly the combinations of its fast span, a listed slow span and a listed tail |
| `GridMain.ProductMembers` | technical-backtesting/scripts/massive_grid_search.py:279-290 | the product holds exactly the combinations of one entry from each list |
| `GridMain.SkipRowMembers` | technical-backtesting/scripts/complete_test.py:144-150 | a row with the skip holds exactly the combinations of its fast span below a listed slow span |
| `GridMain.SkippingMembers` | technical-backtesting/scripts/complete_test.py:143-150 | the loops with the skip produce exactly the ordered combinations of the lists |
| `GridMain.GenerateCombos` | technical-backtesting/scripts/complete_test.py:142-150 | the generation loop computes the skipping product |
| `GridMain.KeepAppend` | technical-backtesting/scripts/massive_grid_search.py:294 | filtering a concatenation filters each part |
| `GridMain.KeepCells` | technical-backtesting/scripts/complete_test.py:145 | the cells of one pair of spans survive the filter entirely when ordered and not at all otherwise |
| `GridMain.KeepRow` | technical-backtesting/scripts/complete_test.py:144-150 | filtering a row of the product gives the row with the skip |
| `GridMain.SkippingIsFiltering` | technical-backtesting/scripts/complete_test.py:143-150 | skipping inside the loops gives the same list, in the same order, as filtering the product afterwards |
| `GridMain.SomesMembers` | technical-backtesting/scripts/massive_grid_search.py:321-322 | the collected results are exactly the results present, no more than the runs |
| `GridMain.RunsAt` | technical-backtesting/scripts/massive_grid_search.py:319-322 | outcome i is the run of item i |
| `GridMain.RunsStep` | technical-backtesting/scripts/massive_grid_search.py:319-322 | one more item appends its result, if any, to the collected ones |
| `GridMain.SomesOfRuns` | technical-backtesting/scripts/massive_grid_search.py:319-322 | what every run returns holds of every collected result |
| `GridMain.EnoughTrades` | technical-backtesting/scripts/qqq_tqqq_efficient.py:229-235 | a result is kept exactly when it has at least three trades, and then unchanged |
| `GridMain.EfficientFilterIsChunkedBacktest` | technical-backtesting/scripts/qqq_tqqq_efficient.py:229-235 | the three-trade filter over the efficient backtest keeps a result exactly when the chunked script's three-trade backtest reports one, and then both have the same trade count and final capital |
| `GridMain.TestSingleCombo` | technical-backtesting/scripts/massive_grid_search.py:239-269 | no result for an unordered MACD pair or a failed fetch; otherwise the backtest of the fetched data, always sensible |
| `GridMain.BatchCount` | technical-backtesting/scripts/massive_grid_search.py:312 | the number of batches is the ceiling of n / size |
| `GridMain.Batch` | technical-backtesting/scripts/massive_grid_search.py:315-317 | batch k holds min(size, n - k * size) items |
| `GridMain.BatchesArePrefix` | technical-backtesting/scripts/massive_grid_search.py:314-317 | the first m batches laid end to end are the first min(m * size, n) items |
| `GridMain.BatchesPartition` | technical-backtesting/scripts/massive_grid_search.py:311-317 | the batches cover the combination list exactly once, in order |
| `GridMain.RunBatches` | technical-backtesting/scripts/massive_grid_search.py:309-322 | the batch loop collects the present results of every combination, in order |
| `GridMain.MassiveSearch` | technical-backtesting/scripts/massive_grid_search.py:294-322 | the search collects, in order, the result of test_single_combo on each combination, every one sensible |
| `GridMain.UpdateBest` | technical-backtesting/scripts/qqq_tqqq_chunked.py:193-194 | the new best keeps or beats the old best's return and the result's return, and is one of the two |
| `GridMain.SensibleAboveSentinel` | technical-backtesting/scripts/qqq_tqqq_chunked.py:172 | every reported result beats the -999 starting value |
| `GridMain.BestIsFirstMaximum` | technical-backtesting/scripts/qqq_tqqq_chunked.py:172-194 | the best exists exactly when a result does, is one of them, has the largest return and is the first to reach it |
| `GridMain.Slot` | technical-backtesting/scripts/qqq_tqqq_chunked.py:198 | the insertion point follows every entry returning at least the value and precedes the first returning less |
| `GridMain.Insert` | technical-backtesting/scripts/qqq_tqqq_chunked.py:197-198 | the stable sort of the list plus one result has one more entry and the same entries |
| `GridMain.InsertShape` | technical-backtesting/scripts/qqq_tqqq_chunked.py:197-198 | the entries before the slot stay, the result sits at the slot, and the rest move up by one |
| `GridMain.InsertIsStable` | technical-backtesting/scripts/qqq_tqqq_chunked.py:197-198 | entries returning at least as much as the result stay in place and the others move up by one |
| `GridMain.InsertSorted` | technical-backtesting/scripts/qqq_tqqq_chunked.py:197-198 | inserting keeps a descending list descending |
| `GridMain.TopTen` | technical-backtesting/scripts/qqq_tqqq_chunked.py:198 | the first min(10, n) entries |
| `GridMain.SomesStep` | technical-backtesting/scripts/qqq_tqqq_chunked.py:187-198 | one more outcome appends its result, if any, to the collected results |
| `GridMain.TrackStep` | technical-backtesting/scripts/qqq_tqqq_chunked.py:187-198 | one more result updates the best and inserts into top_10 |
| `GridMain.TrackLeaders` | technical-backtesting/scripts/qqq_tqqq_chunked.py:172-198 | the main loop computes best and top_10 of the results present |
| `GridMain.TopTenFacts` | technical-backtesting/scripts/qqq_tqqq_chunked.py:198 | keeping ten takes entries of the list and keeps it descending |
| `GridMain.TopTenSorted` | technical-backtesting/scripts/qqq_tqqq_chunked.py:197-198 | top_10 stays descending and takes its entries from the results |
| `GridMain.TopTenSize` | technical-backtesting/scripts/qqq_tqqq_chunked.py:197-198 | top_10 holds min(10, n) entries |
| `GridMain.TenthRises` | technical-backtesting/scripts/qqq_tqqq_chunked.py:197-198 | with ten entries the tenth return never falls |
| `GridMain.InTopOrBelow` | technical-backtesting/scripts/qqq_tqqq_chunked.py:198 | an entry of a descending list is among its first ten or returns no more than the tenth |
| `GridMain.InsertKeeps` | technical-backtesting/scripts/qqq_tqqq_chunked.py:197 | inserting keeps every entry and adds the result |
| `GridMain.TopTenHoldsTheBest` | technical-backtesting/scripts/qqq_tqqq_chunked.py:197-198 | every result is in top_10 or returns no more than its tenth entry |
| `GridMain.TopTenLeadsWithBest` | technical-backtesting/scripts/qqq_tqqq_chunked.py:193-198 | once a result exists the first entry of top_10 is the best |
| `GridMain.CompleteRun` | technical-backtesting/scripts/complete_test.py:177 | every result of one combination, computed with the script's centred RSI, is sensible with at least five trades |
| `GridMain.Remaining` | technical-backtesting/scripts/complete_test.py:160 | the remaining combinations are exactly those not completed |
| `GridMain.KeepNone` | technical-backtesting/scripts/complete_test.py:160 | when no row passes nothing is kept |
| `GridMain.SweepStep` | technical-backtesting/scripts/complete_test.py:176-185 | one more combination is one more visit |
| `GridMain.ResumeSweep` | technical-backtesting/scripts/complete_test.py:153-200 | the resumed loop computes the sweep of the remaining combinations from the loaded progress |
| `GridMain.SweepFacts` | technical-backtesting/scripts/complete_test.py:176-185 | after a sweep every combination it ran is completed, `tested` counts them, the results gain the present outcomes in order, and best stays the best of the results |
| `GridMain.ResumeCompletes` | technical-backtesting/scripts/complete_test.py:153-200 | a resumed run completes every combination so nothing remains, `tested` ends at the completed count plus the remaining ones, every result is sensible, and best is a result with the largest return |
| `Rounding.RoundHalfEven` | technical-backtesting/scripts/qqq_tqqq_efficient.py:137 | the whole number nearest the value, within half a unit of it, and even on an exact tie |
| `Rounding.RoundTo` | technical-backtesting/scripts/qqq_tqqq_efficient.py:137 | `round(x, d)`: a whole number of units of the d-th decimal, off x by at most half a unit |
| `Rounding.RoundPositive` | technical-backtesting/scripts/qqq_tqqq_efficient.py:137-159 | a rounded value is positive exactly when x exceeds half a unit of the last digit |
| `Rounding.RoundKeepsSign` | technical-backtesting/scripts/sma_correct.py:106-138 | only a positive value rounds to a positive one |
| `Rounding.RoundMonotone` | technical-backtesting/scripts/qqq_tqqq_chunked.py:127-194 | rounding keeps the order of two values: ties may appear, inversions never |
| `Rounding.RoundWhole` | technical-backtesting/scripts/qqq_tqqq_chunked.py:127 | a whole number rounds to itself |

## Left out

- Data fetching (Alpaca, yfinance, Polygon), `.env` loading, on-disk caches and the fetches the scripts run at import time: they are I/O. The bars, daily rows and closes each engine needs are parameters, and a failed fetch is an `Option` (`GridMain.Fetch`).
- The QuantConnect algorithms and `compare_qc.py`: they run inside a foreign framework whose scheduler and order model are not visible here.
- pandas joins, index intersections, timezone conversion and sorting by timestamp: the bars arrive already joined, aligned and in time order. Stamps are a day number and a minute of the day.
- NaN is modelled as `None` for the indicator values and rows where pandas produces it, and the comparisons NaN would fail are modelled as false; NaN arithmetic itself is not modelled.
- Printing, tables, the JSON and JSONL writes, composite scores, and the post-tax figures of `backtest_v3.py` (`tax_rate`): they are reporting. `reentry_count` is only printed, so it is not kept in the state.
- Random sampling of combinations in `massive_grid_search.py` (lines 301-304) and `gc.collect()`: randomness and memory management. The search runs over a combination list given as a parameter.
- `test_single_combo`'s `except Exception: pass`: `GridMain.Testable` requires positive closes and valid periods. On a zero close, which pandas hands over as a numpy float, the script computes inf or nan shares and carries on rather than raising, so the model does not cover those inputs.
- The NaN skip in `sma_crossover_test.py` (line 66): the loop starts at index `p + 1`, where the padded SMA and its predecessor are always defined, so the skip never fires and the model has no branch for it.
- The trade summary that best_strategy_detail.py prints (lines 151-179) counts wins on the pnl rounded to one digit; it is printing only, and not modelled.
- The `trades` list in the crossover scripts' result dicts: `PriorSmaScripts.Brief` keeps the return, the trade count and the win rate.
- The QQQ bar lookup in `sma_crossover_15m.py` (lines 105-107): the common index is built from QQQ's own stamps, so the lookup always succeeds and the model reads the bar directly.
- Bollinger bands and volume columns in `qqq_tqqq_massive_test.py` are computed by pandas before the loop. They enter the model as fields of `GridScripts.QqqRow`.
- Floating point: prices and capital are `real`. `round()` is modelled on the exact value (`Rounding.RoundTo`, ties to the even digit), not on the binary float, whose representation can move a value that is exactly half a unit to either side.
- The reported win rate, profit factor, average win and loss, drawdown and final capital are kept unrounded in every report. Those roundings shape only the returned figures, except that the main of `qqq_tqqq_massive_test.py` sorts and prints by the rounded profit factor and win rate, and that main is not part of this model.
- GridScripts.Evaluation: the win rate, profit factor and drawdown are the exact values of the stored trade values; the script rounds them once more (massive_grid_search_v3.py:227-234 and the siblings) before returning them.
- CorrectTest: the returned `wr` is the exact win rate over the rounded pnl values; sma_correct.py:142 rounds it to a whole number once more.
- GridScripts.ReportOf: the grid reports leave out the `params` echoed back, the full `trades` list of qqq_tqqq_massive_test.py:297 and the first three trades kept as `sample` at qqq_tqqq_efficient.py:165; those lists only feed printing.
- Crossover15m.Backtest: the returned `wr` is not rounded to one digit as sma_crossover_15m.py:192 does; the same holds for `CrossoverTest.Backtest` (sma_crossover_test.py:134) and for `SimpleTest` (sma_simple_15m.py:127), whose win count runs on the unrounded pnl as the script's does.
- QqqMassiveBacktest: an undefined profit factor (numpy's inf or nan on division by a zero loss sum) is reported as `None`.
- SmaBacktest.CloseTrade: the closed record's pnl is the exact `shares * (fill - entry) - commission`, where backtest.py:131 and 174 store `round(pnl, 2)`; the capital is exact in both.
- SmaBacktest.Backtest: the returned trades carry the exact pnl, where `run_backtest` returns `round(pnl, 2)` (backtest.py:131, 174, 228), so each record may differ by up to half a cent. The same `round(pnl, 2)` in sma50_v2.py … sma50_v6.py and sma50_trade_list.py only feeds printing.
- Yearly.AddTrade: adds the exact pnl, where `compute_yearly_breakdown` adds the stored `round(pnl, 2)` (backtest.py:275).
- Yearly.YearlyBreakdown: the yearly `begin_bal`/`end_bal` chain the exact pnls, so each balance may differ from the script's by up to half a cent per trade before it.
- SmaV2.ContextOf: the trading-date list `days` is a parameter, taken to be `sorted(grouped.keys())` of sma50_v2.py:70, the dates of the TQQQ bars; nothing ties it to `bars` in the model.
- SmaBacktest.Backtest: the slippage total is not stated as the sum of per-fill costs, because the trade records keep only the rounded cost; and it is not proved non-negative, because a capital below one commission sizes a negative share count. Without slippage it is proved to be zero.
- SmaV2.Backtest: requires `Position.CloseDivisible` (nonzero closes). The requires excludes zero prices, on which sma50_v2.py (closes read from pandas as numpy floats, line 114) computes inf or nan shares and carries on.
- SmaV3.Backtest: requires `Position.CloseDivisible`. The requires excludes zero closes, on which sma50_v3.py (pandas prices, numpy floats) computes inf or nan shares and carries on.
- SmaV4.Backtest: requires `Position.CloseDivisible`. The requires excludes zero closes, on which sma50_v4.py (pandas prices, numpy floats) computes inf or nan shares and carries on.
- SmaV5.Backtest: requires `Position.CloseDivisible`. The requires excludes zero closes, on which sma50_v5.py (pandas prices, numpy floats) computes inf or nan shares and carries on.
- RunV5: also requires `StrictlyAscending(rows)`, so that the loop that builds the daily tables sees each date once and in order. The daily rows come from a pandas groupby over the date, which yields the dates in ascending order, each once.
- SmaV6.Backtest: requires `Position.CloseDivisible`. The requires excludes zero closes, on which sma50_v6.py (pandas prices, numpy floats) computes inf or nan shares and carries on.
- SmaTradeList.Backtest: requires `Position.CloseDivisible`. The requires excludes zero closes, on which sma50_trade_list.py (pandas prices, numpy floats) computes inf or nan shares and carries on.
- SmaBacktest.Backtest: requires `AllDivisible`, a nonzero slipped entry price on every bar. The requires excludes zero prices, on which backtest.py (prices from `tqqq_15.loc[ts, "close"]`, numpy floats, line 109) computes inf or nan shares and carries on.
- Crossover15m.Backtest: requires `OpenDivisible` (nonzero opens); a zero open would raise in the source. `Crossover15m.ExitRule` also requires `trailFrac <= 1`, which every configured trail meets.
- CrossoverTest.Backtest: requires `1 <= p` and `Position.CloseDivisible` (nonzero closes). With `p = 0` the source's rolling window would be empty; every configured period is at least 1. The closes are numpy arrays (sma_crossover_test.py:157-160), so on a zero close the script computes inf or nan shares and carries on; the requires excludes those inputs.
- PriorSma.Backtest: requires `Position.CloseDivisible` (nonzero closes), as does `BestStrategy.Backtest`; a zero close would raise in the source. The lemmas `RunSane`, `FinalFlat` and `FinalCapital` of these engines also require `Core.PositivePrices`.
- DailyEngine.Backtest: requires `OpensDivisible`. The requires excludes zero opens, on which backtest_v3.py (pandas `iloc` prices, numpy floats) computes inf or nan shares and carries on.
- DailyEngine.RunV3: also requires at least one aligned row and a nonzero first close. On no rows backtest_v3.py:212 raises IndexError; on a zero first close `bh_final` is inf.
- EtfComparison.RunPair: requires a nonzero first close for the buy-and-hold ratio; compare_etfs.py:139-141 would compute inf there and carry on.
- SlTpSim.Simulation: requires `WellFormed` (positive closes, and signal columns as long as the closes, which pandas guarantees) and at least one close. Every script calling it has already returned on short data.
- GridScripts.MassiveBacktest: requires `PeriodsValid` (every indicator period at least 1) and positive closes (`Positive`), as do the other grid backtests (`PairBacktest` also requires the two series to be the same length, and `QqqMassiveBacktest` requires `PositiveMap`). A zero period would raise in the source's rolling and EMA setup; a zero close reaches the scripts as a numpy float, so they compute inf or nan shares and carry on, and the requires excludes those inputs.
- The day-before rule in `sma_crossover_15m.py` (lines 153-158) looks up `prev_day - 1` as a calendar day. It is modelled as written: at a Tuesday bar the previous session is a Monday and the day before is a Sunday, and after a holiday it is the holiday, so `day_before_close` (lines 153-155) is missing and the rule does not fire.

## Findings

| source | as written | input that shows it | evidently intended | confidence | as-written member | corrected member |
|---|---|---|---|---|---|---|
| technical-backtesting/scripts/qqq_tqqq_massive_test.py:270-272 | the loss sum falls back to 0.01 only when there are no losing trades, then divides by the loss sum | trade pnls 250 and 0: the break-even trade is a loser with pnl 0, so the division is by zero | the 0.01 floor also when the losing trades add up to zero | not executed | `GridMetrics.UnguardedProfitFactor`, `GridMetrics.BreakEvenTradeDividesByZero` | `GridMetrics.CheckedProfitFactor`, `GridScripts.IntendedQqqMassiveBacktest` |
| technical-backtesting/scripts/fast_grid_search.py:73-75 | a zero average loss is replaced by 1 before dividing, so a window with small gains and no losses reads a low RSI | closes 100, 100.25, 100.5 with period 2 read RSI 20, which votes an oversold buy at level 25 | a window with no losses reads near 100, as when the other scripts cap the ratio at 100 | not executed | `GridSignals.PaddedRsi`, `GridSignals.RisingSeriesReadsOversold`, `GridScripts.FastBacktest` | `GridSignals.CorrectedPaddedRsi`, `GridSignals.NoFallNoOversold`, `GridScripts.IntendedFastBacktest` |
| technical-backtesting/scripts/qqq_tqqq_efficient.py:77-78 | `np.convolve(..., mode='same')` centres the averaging window, so the RSI at a bar uses later bars | closes 100, 101, 102 and 100, 101, 100 with period 3 agree up to bar 1 but give different RSIs at bar 1 | an average over the bars up to and including the current one | not executed | `GridSignals.CentredRsi`, `GridSignals.CentredRsiSeesTheFuture`, `GridScripts.EfficientBacktest` | `GridSignals.PastRsi`, `GridSignals.PastRsiIsCausal`, `GridScripts.IntendedEfficientBacktest` |
