# Portfolio simulation engine, modelled in Dafny

This project models the part of the trading back-test that moves money. It has three pieces.

- **The multi-stock portfolio manager** (module `Portfolio`, file `portfolio_manager.dfy`). It covers:
  - the configuration (initial cash, commission rate, 25 % position cap, 10 % cash reserve);
  - resetting;
  - valuing the holdings;
  - the cash-allocation rule;
  - the buy and sell checks and their execution, commission included;
  - daily snapshots;
  - the summary, with its maximum drawdown.

  The portfolio state is a value (`PortfolioState`). Each operation has a step function over that value (`Bought`, `Sold`, `Snapshotted`, `Initial`). The class `PortfolioManager` keeps the fields the program updates in place. Each of its methods is proved to take the state to exactly the step function's result.
- **The single-instrument back-tester** (module `Backtest`, file `backtester.dfy`). It covers:
  - forward-filled alignment of signals onto price rows;
  - the all-in buy of `cash // close` shares;
  - liquidation, with a flat fee per execution;
  - mark-to-market equity;
  - the one-row summary: final NAV, total return and win ratio.

  `StepRow` is the effect of one row and `Replay` folds it over the rows. The class `Backtester` and its `Run` loop are proved to follow `Replay`.
- **The day-by-day portfolio driver** `run_portfolio_backtest` (module `PortfolioBacktest`, file `portfolio_backtest.dfy`). It:
  - builds the sorted union of all dates;
  - on each date, collects the closes of the instruments priced that day;
  - offers each of those instruments a buy when its buy flag is set, and otherwise a sell when its sell flag is set;
  - records a snapshot when anything was priced.

  `Day` is one iteration of that loop and `Simulate` runs it over the first `n` dates. The method `RunPortfolioBacktest` drives a real `PortfolioManager` object and is proved to end in `Simulate`'s state.

Shared pieces are in module `Basics` (`basics.dfy`): the error values, `Option`/`Result`, floor division and the percentage return.

Modelling conventions:
- Money is `real` and share counts are `int`.
- Python's float floor division `//` and `int(a / p)` on non-negative operands become `Floor`.
- Raised exceptions become `Err(DivisionByZero)` or `Err(IndexNotDatetime)`. `Err(DivisionByZero)` is what a division by zero does on Python floats. In the portfolio driver the prices are numpy floats, which do not raise (see "## Left out").
- Timestamps are integers, compared only by order and equality.

As written, the back-tester's buy guard `if qty:` lets a negative quantity through. `Run` and the lemmas about it use the corrected guard `qty > 0`, and the defect is recorded under "## Findings".

## Model

| member | source | states |
|---|---|---|
| Basics.ReturnPctSign | strategy/portfolio_manager.py:189 | with a positive initial value the percentage return is positive, zero or negative exactly when the final value is above, equal to or below it |
| Basics.FloorDiv | strategy/portfolio_manager.py:73 | the whole quotient of a non-negative cash over a positive price: q·p ≤ a < (q+1)·p |
| Portfolio.Initial | strategy/portfolio_manager.py:33-38 | after reset the cash is the initial cash, every configured instrument holds 0 shares, and both logs are empty |
| Portfolio.PriceOf | strategy/portfolio_manager.py:43 | `prices.get(stock, 0)`: an instrument's price, 0 when it has none. Its effect on the value is stated by `Portfolio.StockValueIgnoresUnpriced` |
| Portfolio.StockValue | strategy/portfolio_manager.py:42-45 | the sum over the configured instruments of position times price. `Portfolio.StockValueNonnegative`, `Portfolio.StockValueIgnoresUnpriced` and `Portfolio.StockValueOfFlat` state its properties |
| Portfolio.PortfolioValue | strategy/portfolio_manager.py:40-46 | the cash plus the stock value. `Portfolio.StockValueOfFlat` states that a flat portfolio is worth its cash |
| Portfolio.StockValueNonnegative | strategy/portfolio_manager.py:40-46 | with no short position and no negative price the holdings are worth at least 0 |
| Portfolio.StockValueIgnoresUnpriced | strategy/portfolio_manager.py:42-45 | an instrument missing from the price map contributes nothing, whatever its position (`prices.get(stock, 0)`) |
| Portfolio.StockValueOfFlat | strategy/portfolio_manager.py:40-46 | with all positions 0 the portfolio is worth exactly its cash |
| Portfolio.Allocation | strategy/portfolio_manager.py:54-58 | the smaller of the cash above the reserve (floored at 0) and the position cap. `Portfolio.AllocationBounds` states its bounds |
| Portfolio.AvailableCash | strategy/portfolio_manager.py:48-58 | the allocation at the current portfolio value. `Portfolio.AllocationBounds` and `Portfolio.BuyBudget` state what it allows |
| Portfolio.AllocationBounds | strategy/portfolio_manager.py:48-58 | the available cash is never above the position cap. It never exceeds the cash over the reserve, it equals one of the two, and it is non-negative while the cap is |
| Portfolio.CanBuy | strategy/portfolio_manager.py:60-74 | a buy is allowed exactly when the position is not long and the available cash pays for one share. An allowed buy has quantity ≥ 1 and a refused one has quantity 0 |
| Portfolio.CanBuyQuantity | strategy/portfolio_manager.py:73-74 | an allowed buy takes the largest whole number of shares the available cash pays for |
| Portfolio.CanSell | strategy/portfolio_manager.py:76-81 | a sell is possible exactly when the position is positive, and it sells the whole position |
| Portfolio.Bought | strategy/portfolio_manager.py:83-116 | a buy keeps every configured instrument present and no position negative |
| Portfolio.BuyEffect | strategy/portfolio_manager.py:89-113 | a refused buy changes nothing. An executed buy lowers the cash by value·(1+commission) and sets the position to the bought quantity. It appends one BUY record with the value, commission and cash after, and changes no other position and no snapshot |
| Portfolio.Sold | strategy/portfolio_manager.py:118-149 | a sell keeps every configured instrument present and no position negative |
| Portfolio.SellEffect | strategy/portfolio_manager.py:123-146 | a sell while flat changes nothing. Otherwise the cash rises by value·(1−commission) and the position becomes 0. One SELL record is appended, and no other position and no snapshot changes |
| Portfolio.BuyKeepsCashNonnegative | strategy/portfolio_manager.py:48-100 | a buy never drives non-negative cash below 0, when the cap times the commission is at most the reserve |
| Portfolio.BuyBudget | strategy/portfolio_manager.py:53-73 | an allowed buy's notional is within the available cash, which stays within both the cash over the reserve and the position cap |
| Portfolio.SellKeepsCashNonnegative | strategy/portfolio_manager.py:128-133 | a sell at a non-negative price with commission ≤ 1 never lowers the cash |
| Portfolio.BuyThenSellCostsTwoCommissions | strategy/portfolio_manager.py:95-134 | buying and then selling at the same price restores the positions, costs exactly two commissions and logs two trades |
| Portfolio.TradesOfAppend | strategy/portfolio_manager.py:104-113 | appending a record extends the records of its own instrument by it and leaves every other instrument's records as they were |
| Portfolio.AlternatesByIndex | strategy/portfolio_manager.py:65-81 | in an instrument's alternating records, every record at an even position is a BUY of a positive quantity, and every record at an odd position is a SELL of exactly the quantity of the BUY before it |
| Portfolio.AlternatesAppend | strategy/portfolio_manager.py:65-81 | a BUY of a positive quantity after an even number of records, or a SELL of the last BUY's quantity after an odd number, keeps the records alternating |
| Portfolio.InCycleAppend | strategy/portfolio_manager.py:65-81 | a BUY from flat that opens its quantity, or a SELL of the whole open position that leaves it flat, keeps the records and the position in step |
| Portfolio.InitialCycles | strategy/portfolio_manager.py:33-38 | after reset every instrument is flat with no records, at the start of its cycle |
| Portfolio.CyclesAfterTrade | strategy/portfolio_manager.py:83-149 | one appended record that opens a position from flat or closes the whole of one, changing only that instrument's position, keeps every instrument in its cycle |
| Portfolio.TickerAfterTrade | strategy/portfolio_manager.py:83-149 | the same for one instrument: the traded one moves one step round its cycle, any other keeps its records and its position |
| Portfolio.BuyKeepsCycles | strategy/portfolio_manager.py:60-116 | a buy, executed or refused, keeps every instrument's records alternating BUY/SELL from a BUY, in step with its position: no buy adds to an open position |
| Portfolio.SellKeepsCycles | strategy/portfolio_manager.py:118-149 | a sell, executed or refused, keeps every instrument's cycle: it closes exactly the quantity the last BUY opened |
| Portfolio.Snapshotted | strategy/portfolio_manager.py:151-161 | one snapshot is appended with the date, the cash, the positions, and a stock value equal to the holdings at the given prices. Its total is cash plus stock value, and nothing else changes |
| Portfolio.LongCount | strategy/portfolio_manager.py:184 | the number of long instruments is 0 exactly when no instrument is long |
| Portfolio.TotalValues | strategy/portfolio_manager.py:206 | the drawdown series is the snapshots' total values, in order |
| Portfolio.Peak | strategy/portfolio_manager.py:207-212 | the running peak is at least the first value and the current value. `Portfolio.PeakIsRunningMax` states that it is their maximum |
| Portfolio.PeakIsRunningMax | strategy/portfolio_manager.py:207-212 | the running peak after value i is the largest of the values 0..i: none of them is above it, and one of them equals it |
| Portfolio.Scan | strategy/portfolio_manager.py:207-214 | the drawdown loop over the first n values fails exactly when one of their running peaks is zero, and then with a division by zero |
| Portfolio.MaxDrawdown | strategy/portfolio_manager.py:201-216 | fewer than two values give 0 without dividing. With two or more it fails exactly when some running peak is zero, and then with a Python-float division by zero |
| Portfolio.Decline | strategy/portfolio_manager.py:213 | the fall from a peak in percent of the peak. `Portfolio.DeclineBounds` bounds it |
| Portfolio.DrawdownAt | strategy/portfolio_manager.py:210-213 | the decline of value i from its running peak. `Portfolio.MaxDrawdownIsLargestDrawdown` states that the drawdown is the largest of these |
| Portfolio.DeclineBounds | strategy/portfolio_manager.py:213 | the decline from a positive peak is ≥ 0 and at most 100 % for non-negative values |
| Portfolio.MaxDrawdownNonnegative | strategy/portfolio_manager.py:201-216 | a computed maximum drawdown is never negative |
| Portfolio.MaxDrawdownIsLargestDrawdown | strategy/portfolio_manager.py:201-216 | with a positive first value the result is the largest drawdown from the running peak, and some value attains it |
| Portfolio.MaxDrawdownOfNondecreasing | strategy/portfolio_manager.py:201-216 | a never-falling value series has drawdown 0 |
| Portfolio.MaxDrawdownAtMostHundred | strategy/portfolio_manager.py:201-216 | with a positive first value and no negative value the drawdown lies in [0, 100] |
| Portfolio.SummaryOf | strategy/portfolio_manager.py:175-199 | without snapshots, the initial cash as final value, 0 return, 0 trades and no drawdown key. Otherwise the last total, the return against the initial cash, the trade count, cash, long count and drawdown. With Python-float division it fails exactly when the initial cash is 0 or a peak is 0 |
| Portfolio.SummaryAfterReset | strategy/portfolio_manager.py:33-185 | a freshly reset portfolio reports its initial cash, no return, no trades, no position and no drawdown |
| Portfolio.PortfolioManager.constructor | strategy/portfolio_manager.py:28-31 | a new manager keeps its configuration and instruments and is in the reset state |
| Portfolio.PortfolioManager.Reset | strategy/portfolio_manager.py:33-38 | the state becomes the reset state |
| Portfolio.PortfolioManager.ExecuteBuy | strategy/portfolio_manager.py:83-116 | reports whether `can_buy` allowed the order, and the new state is `Bought` of the old one |
| Portfolio.PortfolioManager.ExecuteSell | strategy/portfolio_manager.py:118-149 | reports whether `can_sell` allowed the order, and the new state is `Sold` of the old one |
| Portfolio.PortfolioManager.UpdateDailyValue | strategy/portfolio_manager.py:151-161 | the new state is `Snapshotted` of the old one |
| Portfolio.PortfolioManager.CalculateMaxDrawdown | strategy/portfolio_manager.py:201-216 | the loop's result is `MaxDrawdown` of the snapshot totals |
| Portfolio.PortfolioManager.GetSummary | strategy/portfolio_manager.py:175-199 | the result is `SummaryOf` the current state |
| Backtest.RoundHalfEven | strategy/backtester.py:116 | the rounded value is within one half of its argument, and at an exact half it is the even neighbour, as Python's `round` |
| Backtest.RoundHalfEvenMonotone | strategy/backtester.py:116 | rounding preserves order |
| Backtest.Round4Monotone | strategy/backtester.py:116 | rounding to 4 places preserves order |
| Backtest.LastAtOrBefore | strategy/backtester.py:59 | forward fill picks the last signal row at or before the timestamp, and none when every signal row is later |
| Backtest.FlagsAt | strategy/backtester.py:59-61 | a price row before the first signal gets no flags (`fillna(False)`) |
| Backtest.FlagsFromLatestSignal | strategy/backtester.py:59-61 | with increasing signal times, a price row at or after some signal gets exactly the buy and sell flags of the latest signal at or before it, a missing flag reading false; a row before every signal gets neither flag |
| Backtest.AlignedFlags | strategy/backtester.py:59-61 | one flag pair per price row, each the forward-filled flags of its timestamp |
| Backtest.Executed | strategy/backtester.py:105-110 | the signed cash and position update of `_execute`. `Backtest.ExecutedEffect` and `Backtest.ExecutedRoundTrip` state it per side |
| Backtest.BuyQty | strategy/backtester.py:79 | `cash // close` as a whole number: the largest whole number not above cash / close |
| Backtest.ExecutedEffect | strategy/backtester.py:105-110 | a BUY pays price·qty plus the flat fee and adds qty shares. A SELL receives price·qty less the fee and removes qty shares |
| Backtest.ExecutedRoundTrip | strategy/backtester.py:105-110 | buying then selling the same shares at the same price restores the position and costs two fees |
| Backtest.StepRow | strategy/backtester.py:74-91 | one row of the loop, under either guard. `Backtest.StepRowEffect` and `Backtest.HaltPersists` state what it does |
| Backtest.Replay | strategy/backtester.py:68-91 | the loop over the first n rows from the initial cash and no shares. `Backtest.EquityLength`, `Backtest.EquityMarksToMarket` and `Backtest.ReplayKeepsCycle` state its properties, and `Backtest.Backtester.RowLoop` runs it |
| Backtest.StepRowEffect | strategy/backtester.py:74-91 | (corrected guard) one row either stops on a zero close, when the buy branch is taken, or marks one equity value. It records at most one fill at the rounded close. A BUY happens only when flat with the buy flag set and buys `cash // close` > 0 shares. A SELL happens only when the buy branch is not taken and the account is long with the sell flag, and it sells the whole position |
| Backtest.HaltPersists | strategy/backtester.py:74-80 | once the loop stops on a division by zero, later rows change nothing |
| Backtest.EquityLength | strategy/backtester.py:74-91 | every completed row adds exactly one equity value |
| Backtest.EquityMarksToMarket | strategy/backtester.py:91 | row i's equity is the cash plus the position times that row's close, after row i's trade |
| Backtest.ReplayKeepsCycle | strategy/backtester.py:74-88 | with the guard `qty > 0`, the position is never negative and fills alternate BUY/SELL starting with BUY. Every SELL sells what the BUY before it bought |
| Backtest.BuyLeavesLessThanOneShare | strategy/backtester.py:79-83 | right after an all-in BUY at a positive close, the cash left is at least −fee and below the close less the fee: the BUY spends all the cash it can |
| Backtest.AsWrittenGoesShort | strategy/backtester.py:79-80 | with the guard as written, cash 10 and fee 6, buying at 10, selling at 1 and buying at 10 ends with cash 3 and position −2 |
| Backtest.Wins | strategy/backtester.py:133-134 | the SELLs whose price is above the previous trade's. `Backtest.WinsAtMostHalf` bounds them |
| Backtest.WinsAtMostHalf | strategy/backtester.py:133-135 | with alternating fills, at most half the trades are wins |
| Backtest.WinIsRise | strategy/backtester.py:134 | a rise in rounded prices is a rise in the prices |
| Backtest.WinRatio | strategy/backtester.py:133-135 | the win ratio is absent exactly when there are no trades |
| Backtest.WinRatioAtMostHalf | strategy/backtester.py:133-135 | with alternating fills, the win ratio lies in [0, 0.5] |
| Backtest.FinalNav | strategy/backtester.py:126-129 | the last equity value, or the initial cash when there is none. `Backtest.NoTradesNoReturn` and `Backtest.SummaryOfRun` state what it reports |
| Backtest.BuildSummary | strategy/backtester.py:123-146 | fails exactly on a zero initial cash. Otherwise it reports the initial cash, the final NAV (the last equity value, or the initial cash when there is none), the return (NAV / cash − 1)·100, the number of trades, and the win ratio: wins over trades, absent without trades |
| Backtest.Finish | strategy/backtester.py:97-102 | a completed loop returns its fills and equity curve unchanged, with their summary |
| Backtest.NoTradesFlatEquity | strategy/backtester.py:74-91 | a run with no fills keeps its initial cash and zero position, and every equity value equals the initial cash |
| Backtest.NoTradesNoReturn | strategy/backtester.py:126-131 | a run with no fills reports the initial cash as final NAV and 0 return |
| Backtest.SummaryOfRun | strategy/backtester.py:126-135 | a completed corrected run has a win ratio in [0, 0.5], and its return is positive exactly when the final NAV is above the initial cash |
| Backtest.Backtester.constructor | strategy/backtester.py:31-38 | the two settings are kept and the live cash and position are zero |
| Backtest.Backtester.Execute | strategy/backtester.py:105-120 | the account moves as `Executed` says, and one fill with the rounded price and the new cash is appended |
| Backtest.Backtester.ProcessRow | strategy/backtester.py:74-91 | (corrected guard) one loop iteration takes the fields, fills and equity exactly as `StepRow` does |
| Backtest.Backtester.RowLoop | strategy/backtester.py:68-91 | (corrected guard) the loop from the reset fields ends where `Replay` over all rows ends |
| Backtest.Backtester.Run | strategy/backtester.py:41-102 | (corrected guard) a frame without a datetime index is refused and the fields are untouched. Otherwise the result and the final fields are those of `Replay` over the aligned flags, finished into the three frames |
| PortfolioBacktest.Tickers | main.py:38 | the instruments are the data's tickers, in order |
| PortfolioBacktest.Insert | main.py:51 | inserting a date into a strictly increasing list keeps it strictly increasing and adds exactly that date |
| PortfolioBacktest.InsertAll | main.py:51 | adding a frame's dates keeps the list strictly increasing and adds exactly those dates |
| PortfolioBacktest.DateUnion | main.py:51 | the dates walked are strictly increasing, and are exactly the dates on which some instrument has a row |
| PortfolioBacktest.BarOn | main.py:58-59 | finds a frame's row for the date when there is one, and reports none exactly when no row has that date |
| PortfolioBacktest.Quotes | main.py:56-59 | the instruments priced on the date, with their rows. `PortfolioBacktest.QuotesFollowData`, `PortfolioBacktest.QuoteIsRow` and `PortfolioBacktest.QuoteForEveryRow` state which and in what order |
| PortfolioBacktest.PricedFeeds | main.py:56-59 | the positions in the data of the frames with a row on the date: strictly increasing, each such frame, and only those |
| PortfolioBacktest.QuotesFollowData | main.py:56-62 | the date's quotes are, one for one and in the data's order, the frames with a row that day, each with that row: the order in which the instruments are offered the cash |
| PortfolioBacktest.QuoteIsRow | main.py:56-59 | every priced instrument is a row of that instrument's frame, dated that day |
| PortfolioBacktest.QuoteForEveryRow | main.py:56-59 | every frame with a row on the date is priced on that date |
| PortfolioBacktest.PricesOf | main.py:56-59 | `current_prices`. `PortfolioBacktest.PricesOfKeys` and `PortfolioBacktest.PricesOfValues` state its keys and values |
| PortfolioBacktest.PricesOfKeys | main.py:56-59 | the price map's keys are exactly the priced instruments |
| PortfolioBacktest.PricesOfValues | main.py:56-59 | with one quote per instrument, each priced instrument's price is the close of its quote |
| PortfolioBacktest.PricedOnTradedDate | main.py:54-59 | on every walked date the price map is non-empty |
| PortfolioBacktest.PricesPositive | main.py:56-59 | positive closes give a price map with only positive prices |
| PortfolioBacktest.Act | main.py:63-73 | offering one instrument keeps every position present and none negative |
| PortfolioBacktest.BuyFlagShadowsSell | main.py:68-73 | when both flags are set and the instrument is held, nothing happens: the buy is refused and the sell branch is not tried |
| PortfolioBacktest.ActEffect | main.py:63-73 | one offer leaves the snapshots alone and appends at most one trade. That trade is for the offered instrument on that date at its close, a BUY only on a buy flag and a SELL only on a sell flag without a buy flag |
| PortfolioBacktest.Trades | main.py:62-73 | the trades of a date keep every position present and none negative |
| PortfolioBacktest.TradesEffect | main.py:62-73 | a date's trades only append to the log. Every appended trade answers one of that date's quotes, and the snapshots are unchanged |
| PortfolioBacktest.TradesOncePerInstrument | main.py:62-73 | with distinct tickers, a date's new trades are all on that date, for pairwise different instruments |
| PortfolioBacktest.QuotesDistinct | main.py:56-62 | distinct tickers in the data give distinct tickers among a date's quotes |
| PortfolioBacktest.Day | main.py:54-77 | a date of the walk keeps every position present and none negative |
| PortfolioBacktest.Simulate | main.py:51-77 | the walk over the first n dates from a reset portfolio, keeping every position present and none negative. `PortfolioBacktest.OneSnapshotPerDate`, `PortfolioBacktest.AtMostOneTradePerDate`, `PortfolioBacktest.NoPyramiding` and `PortfolioBacktest.CashNeverNegative` state what it does |
| PortfolioBacktest.DaySnapshot | main.py:76-77 | on a date with any row, exactly one snapshot for that date is appended and earlier snapshots are unchanged |
| PortfolioBacktest.OneSnapshotPerDate | main.py:51-77 | after n walked dates there is exactly one snapshot per date, in date order |
| PortfolioBacktest.DayJustified | main.py:54-73 | every trade a date adds answers a row of that instrument's frame |
| PortfolioBacktest.TradesJustified | main.py:54-73 | every logged trade is at the close of a row of its instrument's frame, on that row's date, in the direction of the row's flags |
| PortfolioBacktest.DayOncePerInstrument | main.py:62-73 | a date's new trades are on that date and for pairwise different instruments |
| PortfolioBacktest.AtMostOneTradePerDate | main.py:54-73 | over the walk, every trade is dated on a walked date and no instrument trades twice on one date |
| PortfolioBacktest.DayKeepsCash | main.py:54-77 | one date keeps the cash, every logged cash-after and the cash of every snapshot non-negative |
| PortfolioBacktest.TradesKeepCash | main.py:62-73 | a date's trades keep the cash and every logged cash-after non-negative |
| PortfolioBacktest.CashNeverNegative | main.py:31-77 | with the driver's 25 % cap and 10 % reserve, commission ≤ 40 % and non-negative initial cash, the cash, every logged cash-after and every snapshot's cash stay non-negative |
| PortfolioBacktest.TradesKeepCycles | main.py:62-73 | a date's trades keep every instrument in its cycle |
| PortfolioBacktest.DayKeepsCycles | main.py:54-77 | one date keeps every instrument in its cycle; the snapshot changes neither the log nor the positions |
| PortfolioBacktest.CyclesStep | main.py:54-77 | one more walked date keeps every instrument in its cycle |
| PortfolioBacktest.NoPyramiding | main.py:54-77 | over the whole walk, each instrument's records alternate BUY, SELL, BUY, ... from a BUY, each SELL closes exactly what the BUY before it opened, and the position is that BUY's quantity after an odd number of records and 0 after an even number: no instrument is ever bought while held |
| PortfolioBacktest.DayIdle | main.py:54-77 | without buy signals, a flat portfolio's date changes only the snapshots |
| PortfolioBacktest.NoBuyTradesIdle | main.py:62-73 | without buy signals, a flat portfolio's trades change nothing |
| PortfolioBacktest.NoBuyNoTrades | main.py:54-77 | without any buy signal, no trade is ever logged, the cash stays the initial cash, every position stays 0, and every snapshot's total is the initial cash |
| PortfolioBacktest.UntouchedSummary | strategy/portfolio_manager.py:175-199 | an untouched portfolio reports no return, no trades, its initial cash, and a drawdown of 0 once it has a snapshot |
| PortfolioBacktest.NoBuySummary | main.py:54-77 | without buy signals, the run's summary is its initial cash, 0 return, 0 trades and drawdown 0, or no drawdown when there are no dates |
| PortfolioBacktest.DriverConfig | main.py:31-36 | the driver caps each position at 25 % and keeps a 10 % reserve |
| PortfolioBacktest.RunPortfolioBacktest | main.py:25-79 | the returned manager is new, configured with the driver's settings over the data's tickers, and in `Simulate`'s state after every date |
| PortfolioBacktest.RunDay | main.py:54-77 | one iteration of the date loop takes the manager from its state to `Day` of it |
| PortfolioBacktest.CurrentPrices | main.py:56-59 | builds the date's quotes and price map |
| PortfolioBacktest.Offer | main.py:63-73 | one instrument's buy-else-sell takes the manager to `Act` of its state |
| PortfolioBacktest.TradeDay | main.py:62-73 | the per-instrument loop takes the manager to `Trades` of its state |

## Left out

- Signal generation (the RSI/moving-average strategy), the learned model, configuration files, logging, data download, export and the pandas glue are not part of this model. This glue includes `_scalar`, DataFrame construction, `get_trades_df` and `get_daily_values_df`. The signal frames are inputs: `Feed` rows already carry a close and the two flags.
- Floating point: amounts are exact reals. Python's float rounding, NaN and infinity are not modelled. `round` is exact half-even rounding of the real value, not of its binary approximation.
- Timestamps are integers. Only their order and equality matter.
- Portfolio.PortfolioManager.ExecuteBuy: requires the instrument to be configured. An unknown instrument raises KeyError in `can_buy`, and that path is not modelled. ExecuteSell and `can_sell` have the same requirement.
- Portfolio.PortfolioManager.ExecuteBuy: requires a positive price. At price 0 `can_buy` divides by zero. A negative price is not modelled either: it is usually refused, but when the portfolio's value is negative too, `available_cash` can equal the price, `max_qty` is 1 and the buy executes.
- Portfolio.SummaryOf: the summary is a record rather than a dictionary. The absent 'max_drawdown' key is `None`.
- Portfolio.MaxDrawdown: a zero peak gives `Err(DivisionByZero)`, which is what `(peak - value) / peak` does on Python floats. In the driver every total is a numpy float, because the prices come from `df.loc[date, 'close']` (main.py:59). There the division gives inf or nan with a RuntimeWarning and does not raise, and `max(0.0, nan)` keeps the running maximum. That path is not modelled, because the model has no inf or nan. Values that would make a float division overflow do not exist for reals.
- Portfolio.SummaryOf: a zero initial cash with a snapshot gives `Err(DivisionByZero)`, as `final_value / initial_value` does on Python floats. With the driver's numpy totals it gives inf or nan and does not raise; that outcome is not modelled, for the same reason.
- PortfolioBacktest.RunPortfolioBacktest: requires well-formed data. Tickers must be distinct, every close positive, and each frame's dates distinct. A duplicated date would make `df.loc[date, 'close']` a Series, and a zero close would make `can_buy` divide by zero. It returns the manager only: the signal frames it also returns are its input here.
- PortfolioBacktest.RunPortfolioBacktest: a missing (NaN) flag in a signal frame is not modelled. The flags are plain booleans.
- PortfolioBacktest.CashNeverNegative: stated for the driver's 25 % cap and 10 % reserve with a commission of at most 40 %. `Portfolio.BuyKeepsCashNonnegative` states the general condition: cap × commission ≤ reserve.
- Backtest.Backtester.Run: requires strictly increasing signal timestamps. pandas refuses a forward-filling reindex from a non-monotonic index, and that error is not modelled. The requirement is stricter than pandas: it also excludes a decreasing index, which pandas accepts. It also requires distinct price timestamps, because with a repeated timestamp `df.at` writes the equity of every row with that label.
- Backtest.Backtester.Run: the forward fill of the equity column is left out. It changes nothing, because every completed row writes its equity. The `qty` and `cash` columns the frame preallocates are never filled and are not modelled.
- Backtest.Backtester.Execute: the cash recorded in a fill is the exact cash, not `round(cash, 4)`.
- Backtest.BuildSummary: the display rounding of the final NAV, the return and the win ratio to 2 places is not modelled, and the blank win ratio is `None`.
- Backtest.Backtester.Run: the fills are returned as a sequence rather than appended to a list passed by reference.

## Findings

| source | as written | input that shows it | evidently intended | confidence | as-written member | corrected member |
|---|---|---|---|---|---|---|
| strategy/backtester.py:79-80 | `if qty:` admits any non-zero quantity, including a negative one when the cash has gone below zero | initial cash 10, fee 6: BUY at 10 (cash −6), SELL at 1 (cash −11), BUY at 10 → `qty = -2`, cash 3, position −2 | only a positive quantity is bought (`qty > 0`), so the account is only ever flat or long | not executed | Backtest.AsWrittenGoesShort | Backtest.ReplayKeepsCycle |
