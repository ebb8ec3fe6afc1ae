# Volatility backtesting core, modelled in Dafny

This project models the bookkeeping and signal logic of a small Python
backtesting repository for VIX-related strategies.

- The two-instrument VXX/VXZ rebalancing ledger of
  `backtester/volatility_etns.py`:
  - the IVTS ratio tables;
  - whole-share order sizing (`calc_adjustments`);
  - sign-aware cash accounting (`calc_cash_delta`);
  - the day-by-day `run` loop;
  - the VIX futures settlement calendar;
  - the futures price lookup.
- The Bollinger-band trend state machine of `MovingAverageBacktest` and the
  one-day channels of `ChanBacktest` in `backtester/backtester.py`.
- The series helpers of `common/utils.py` and `backtester/utils.py`:
  - `day_count` and `work_day_delta`;
  - `get_max_vector`, which reads NaN as negative infinity;
  - in-place `ffill`;
  - `lag`;
  - simple and logarithmic returns.
- Futures-tenor selection in `backtester/vix_futures_pca.py`. It finds the
  two expiries around a horizon, looks up their prices (a missing date
  reads as NaN) and interpolates between them.
- The market-making order book `Positions` of
  `backtester/market_making.py`.
- `order_results_desc` of `backtester/backtest_runner.py`.
- `get_dates` and `_get_price_file` of `common/data_loader.py`.

The modules follow the program's structure.

- `Wrappers` holds `Option` and `Result`.
- `Floats` is a float with NaN and the two infinities, and numpy's
  comparisons on it: every comparison with NaN is false.
- `Calendar` holds proleptic Gregorian dates with Python's `toordinal` and
  `weekday`, and stepping by days.
- `VixExpiry` is the settlement calendar. `backtester/volatility_etns.py`
  and `backtester/vix_futures_pca.py` contain identical copies of it.
- `FuturesTable` holds the futures price table and month stepping.
- `VolatilityEtns`, `Backtester`, `SeriesUtils`, `VixFuturesPca`,
  `MarketMaking`, `BacktestRunner` and `DataLoader` each model one source
  file. `SeriesUtils` models both utility files; the `backtester/utils.py`
  versions are `common/utils.py`'s with a fixed `lag` fill of 0.

Prices, quantities of the order book and cash are exact reals. Share
quantities of the ETN ledger are integers. numpy's `astype(int)` is
truncation toward zero. Loops of the source are `while`/`for` loops proved
against specification functions. The order book is a class whose methods
change its fields. `ffill` and the signal loop work on arrays.

## Model

| member | source | states |
|---|---|---|
| VixExpiry.ThirdFriday | backtester/volatility_etns.py:345-353 | the date the stepping loop starts from (the 15th of the following month, December rolling to January of the next year) leads to a valid date on day 15–21 of that month |
| VixExpiry.ThirdFridayIsFriday | backtester/volatility_etns.py:353-355 | that date is a Friday, so the stepping loop stops there |
| VixExpiry.OnlyFridayInRange | backtester/volatility_etns.py:353-355 | it is the only Friday among days 15–21, so it is the first one the loop reaches |
| VixExpiry.ExpiryFor | backtester/volatility_etns.py:326-359 | the settlement date lies in the same year and month as the date it is computed for, on day 13–22 |
| VixExpiry.ExpiryIsSettlement | backtester/volatility_etns.py:326-359 | the settlement date is thirty days before the third Friday of the following month, and it is a Wednesday |
| VixExpiry.ExpiryDateForMonth | backtester/volatility_etns.py:326-359 | the stepping loop returns the settlement date, a Wednesday in the month of its argument; the copy at backtester/vix_futures_pca.py:168-201 is the same |
| VixExpiry.NextExpiryFor | backtester/volatility_etns.py:317-323 | the next expiry comes strictly after the date; it is this month's expiry or the expiry of the month thirty days later |
| VixExpiry.NextExpiryIsWednesday | backtester/volatility_etns.py:317-323 | the next expiry is a Wednesday |
| VixExpiry.NextExpiryDate | backtester/volatility_etns.py:317-323 | the routine returns `NextExpiryFor` of its argument, a date strictly after it; the copy at backtester/vix_futures_pca.py:157-165 is the same |
| VixExpiry.NextExpiryIntended | backtester/volatility_etns.py:317-323 | corrected next expiry: strictly after the date; this month's expiry, or else the following calendar month's |
| VixExpiry.SameMonthSameExpiry | backtester/volatility_etns.py:345-350 | the settlement date depends only on the year and month of the date |
| VixExpiry.ExpiryMonotone | backtester/volatility_etns.py:326-359 | expiries of later months come strictly later |
| VixExpiry.NoExpiryBefore | backtester/volatility_etns.py:326-359 | no month from the date's own month on settles before the date's month does |
| VixExpiry.NextExpiryIntendedIsEarliest | backtester/volatility_etns.py:317-323 | the corrected next expiry is the earliest settlement date strictly after the date |
| VixExpiry.NextExpiryAgreesUnlessLateJanuary | backtester/volatility_etns.py:320-323 | the routine as written agrees with the corrected one exactly when the date is not one of the last days of January from which thirty days reach March |
| VixExpiry.ThirtyDaysLater | backtester/volatility_etns.py:323 | from day 13 on, thirty days later is in the following month, except from those late-January days, where it is in March |
| VixExpiry.ExpiryDecember2014 | backtester/test/test_volatility_etns.py:99-101 | December 2014 settles on 2014-12-17 |
| VixExpiry.ExpiryJanuary2015 | backtester/test/test_volatility_etns.py:102-104 | January 2015 settles on 2015-01-21 |
| VixExpiry.ExpiryFebruary2015 | backtester/test/test_volatility_etns.py:105-107 | February 2015 settles on 2015-02-18 |
| VixExpiry.ExpiryMarch2015 | backtester/volatility_etns.py:326-359 | March 2015 settles on 2015-03-18 |
| VixExpiry.NextExpiryDayBefore | backtester/test/test_volatility_etns.py:110-112 | from 2014-12-16 the next expiry is 2014-12-17 |
| VixExpiry.NextExpiryOnSettlementDay | backtester/test/test_volatility_etns.py:113-115 | on 2014-12-17 itself the next expiry is 2015-01-21 |
| VixExpiry.NextExpiryFirstOfMonth | backtester/test/test_volatility_etns.py:116-121 | from 2015-01-01 it is 2015-01-21, from 2015-02-01 it is 2015-02-18 |
| VixExpiry.NextExpirySkipsFebruary | backtester/volatility_etns.py:317-323 | as written, from 2015-01-31 the next expiry is 2015-03-18 |
| VixExpiry.NextExpiryIntendedKeepsFebruary | backtester/volatility_etns.py:317-323 | corrected, from 2015-01-31 it is 2015-02-18, which lies between the date and 2015-03-18 |
| FuturesTable.MonthsAfter | backtester/volatility_etns.py:304-310 | stepping `k` months from (year, month) gives a valid month exactly `k` months later, December rolling to January of the next year |
| FuturesTable.PriceCount | backtester/volatility_etns.py:299-303 | the lookup returns `month_count` prices, and always at least the one taken before the counted loop |
| FuturesTable.MonthsAfterStep | backtester/volatility_etns.py:304-310 | one step of the loop's month counter moves from month `k` to month `k + 1` |
| FuturesTable.MonthsAfterDistinct | backtester/vix_futures_pca.py:141-150 | different steps read different calendar months |
| VolatilityEtns.TableOf | backtester/volatility_etns.py:372-534 | the IVTS brackets and weights each ratio function's docstring gives; the ratio functions are proved equal to their table's lookup, and every table's weights are balanced |
| VolatilityEtns.Lookup | backtester/volatility_etns.py:372-534 | a table returns the weights of the first bracket the term structure meets, or the last weights when it meets none |
| VolatilityEtns.MojitoRatio | backtester/volatility_etns.py:372-382 | `get_mojito_ratio` is the first-matching lookup of its table, and its weights' absolute values add up to one |
| VolatilityEtns.MojitoAggressiveRatio | backtester/volatility_etns.py:395-405 | the same for `get_mojito_aggressive_ratio` |
| VolatilityEtns.Mojito20AggressiveRatio | backtester/volatility_etns.py:420-428 | the same for `get_mojito_2_0_aggressive_ratio` |
| VolatilityEtns.Mojito20MediumRatio | backtester/volatility_etns.py:443-451 | the same for `get_mojito_2_0_medium_ratio` |
| VolatilityEtns.Mojito20Medium30TSRatio | backtester/volatility_etns.py:465-473 | the same for `get_mojito_2_0_medium_30ts_ratio` |
| VolatilityEtns.Mojito20Aggressive30TSRatio | backtester/volatility_etns.py:488-496 | the same for `get_mojito_2_0_aggressive_30ts_ratio` |
| VolatilityEtns.Mojito30VixVxvRatio | backtester/volatility_etns.py:499-507 | the same for `get_mojito_3_0_vix_vxv_ratio` |
| VolatilityEtns.DynamicVixRatio | backtester/volatility_etns.py:520-530 | the same for `get_dynamic_vix_ratio`, whose first bound is strict |
| VolatilityEtns.FixedVixRatio | backtester/volatility_etns.py:533-534 | the fixed ratio is a table with no brackets, and it is balanced |
| VolatilityEtns.Ratio | backtester/volatility_etns.py:123 | whichever ratio function `run` is given, the weights are its table's lookup and are balanced |
| VolatilityEtns.Truncate | backtester/volatility_etns.py:546 | `astype(int)` truncates toward zero: within one of the value, on the side of zero |
| VolatilityEtns.TruncateShrinks | backtester/volatility_etns.py:544-546 | truncation never increases the absolute value |
| VolatilityEtns.Capital | backtester/volatility_etns.py:538-541 | the capital allocated, the notional plus any positive cash, is never negative |
| VolatilityEtns.Target | backtester/volatility_etns.py:540-545 | the whole-share holding the weight buys with the capital at the price, truncated toward zero; TargetAffordable bounds its value by the weight's share of the capital |
| VolatilityEtns.CalcAdjustments | backtester/volatility_etns.py:537-554 | one order per instrument; which orders is `AdjustmentsReachTargets` |
| VolatilityEtns.AdjustmentsReachTargets | backtester/volatility_etns.py:537-546 | holding plus order is the weight times the capital over the price, truncated toward zero |
| VolatilityEtns.TargetAffordable | backtester/volatility_etns.py:544-546 | a truncated target is worth at most its weight's share of the capital |
| VolatilityEtns.AdjustmentsAffordable | backtester/volatility_etns.py:540-546 | at positive prices the new book's notional is at most the gross weight times the notional plus the positive cash; negative cash adds nothing |
| VolatilityEtns.SharesAffordable | backtester/volatility_etns.py:540-546 | a book whose every holding is within its share is worth at most the budget |
| VolatilityEtns.BalancedBudget | backtester/volatility_etns.py:372-534 | with balanced weights the budget is the whole capital |
| VolatilityEtns.CalcAdjustmentsFromFlat | backtester/test/test_volatility_etns.py:12-24 | from a flat book with 10000 cash the orders are [-150, 116] |
| VolatilityEtns.CalcAdjustmentsNoCash | backtester/test/test_volatility_etns.py:26-36 | after a price move without cash the orders are [19, 7] |
| VolatilityEtns.CalcAdjustmentsWithCash | backtester/test/test_volatility_etns.py:38-50 | with 100 cash the orders are [-5, 5] |
| VolatilityEtns.CalcAdjustmentsSignChange | backtester/test/test_volatility_etns.py:52-64 | on [10, 10] at [5, 5] with weights [-0.5, 0.5] the orders are [-20, 0] |
| VolatilityEtns.Cost | backtester/volatility_etns.py:560-577 | the five branches of one instrument's cost; CostIsNotionalGrowth proves each is the growth of the absolute holding times the price |
| VolatilityEtns.Costs | backtester/volatility_etns.py:558-577 | the running sum `costs` over the first n instruments, which CalcCashDelta's loop invariant tracks |
| VolatilityEtns.CostIsNotionalGrowth | backtester/volatility_etns.py:557-578 | at a non-negative price each of the five branches costs exactly the growth of the absolute holding at that price |
| VolatilityEtns.NoOrderNoCost | backtester/volatility_etns.py:557-578 | an instrument with no order costs nothing |
| VolatilityEtns.CalcCashDelta | backtester/volatility_etns.py:557-578 | the loop returns the negated sum of the per-instrument costs |
| VolatilityEtns.CashDelta | backtester/volatility_etns.py:557-578 | the negated costs, the value the ledger adds to the cash; CashDeltaConservesNotional proves it is the notional the orders release |
| VolatilityEtns.CashDeltaConservesNotional | backtester/volatility_etns.py:557-578 | at non-negative prices the cash delta is the old notional minus the new: cash plus notional is conserved |
| VolatilityEtns.CashDeltaExamples | backtester/test/test_volatility_etns.py:66-96 | the four unit tests: -20, -20, 0 and 0 |
| VolatilityEtns.Rebalance | backtester/volatility_etns.py:123-139 | one day of the loop: orders from calc_adjustments on yesterday's book, prices and cash, the new book and the new cash; RebalanceReachesTargets and RebalanceKeepsCash state its effect |
| VolatilityEtns.DayAt | backtester/volatility_etns.py:113-139 | day i of the ledger: day 0 flat with the starting cash, every later day the rebalance of the day before at its prices and ratio; CashNeverNegative is proved over it |
| VolatilityEtns.DaysFollow | backtester/volatility_etns.py:113-139 | day 0 of the ledger holds nothing and the starting cash; every later day rebalances the day before at the day before's prices and ratio |
| VolatilityEtns.Run | backtester/volatility_etns.py:111-139 | the ledger `run` fills is the day-by-day recurrence, one entry per day; an empty series fails |
| VolatilityEtns.FillLedger | backtester/volatility_etns.py:122-139 | the loop fills every day of the three arrays with the recurrence |
| VolatilityEtns.RebalanceStep | backtester/volatility_etns.py:123-139 | one loop body: the orders, then the held book plus orders, then the cash plus the cash delta |
| VolatilityEtns.RebalanceReachesTargets | backtester/volatility_etns.py:127-133 | after a rebalance the book is exactly the truncated targets |
| VolatilityEtns.RebalanceKeepsCash | backtester/volatility_etns.py:127-139 | at positive prices towards balanced weights, non-negative cash stays non-negative |
| VolatilityEtns.CashNeverNegative | backtester/volatility_etns.py:111-139 | with positive prices, balanced tables and non-negative starting cash, the ledger's cash is never negative |
| VolatilityEtns.PriceFor | backtester/volatility_etns.py:299 | the triple lookup succeeds exactly when year, month and date are all present, and gives the stored price |
| VolatilityEtns.FuturesPricesFor | backtester/volatility_etns.py:294-314 | a successful lookup gives exactly `count` prices |
| VolatilityEtns.FuturesPricesMeaning | backtester/volatility_etns.py:294-314 | the prices are those of the consecutive months in order; the lookup fails exactly when one month's lookup fails |
| VolatilityEtns.FuturesPricesStep | backtester/volatility_etns.py:303-312 | one more month appends that month's price or fails with its error |
| VolatilityEtns.ErrorPersists | backtester/volatility_etns.py:294-314 | once a lookup raises, asking for more months raises the same error |
| VolatilityEtns.GetFuturesPrices | backtester/volatility_etns.py:294-314 | the counted loop returns the lookup of `max(1, month_count)` consecutive months |
| Backtester.ZScoresValid | backtester/backtester.py:179-180 | the parameter check, entry z-score strictly above exit z-score; Run raises ParameterException exactly when it fails |
| Backtester.PrevIndex | backtester/backtester.py:184 | `index - 1` is the previous day, and at day 0 it wraps to the last element |
| Backtester.BreakUpwards | backtester/backtester.py:183-184 | yesterday at or below the band and today above it, with NaN comparisons false; BreakMeaning and BreakMirror state it |
| Backtester.BreakDownwards | backtester/backtester.py:187-188 | yesterday at or above the band and today below it; BreakMirror proves it is the upward break of the negated series and band |
| Backtester.BreakMirror | backtester/backtester.py:182-188 | a downward break is an upward break of the negated prices through the negated band |
| Backtester.BreakMeaning | backtester/backtester.py:182-188 | on numeric bands the breaks are `c[i-1] <= b[i-1] && c[i] > b[i]` and its mirror; a NaN band never breaks |
| Backtester.BreakExamples | backtester/test/test_backtester.py:35-49 | the six break tests, including touching the band the day before |
| Backtester.ExitUpper | backtester/backtester.py:127-128 | the down-trend exit band at the exit z-score's fraction of the way from the middle to the upper band, one entry per day |
| Backtester.ExitLower | backtester/backtester.py:129-130 | the up-trend exit band at the exit z-score's fraction of the way from the middle to the lower band, one entry per day |
| Backtester.ExitBandsBetween | backtester/backtester.py:127-130 | with ordered finite bands and 0 <= exit < entry, the exit bands lie between the middle band and the entry bands; exit 0 exits at the middle band |
| Backtester.Step | backtester/backtester.py:146-173 | one day of the trend state machine; StepSignal proves the signal is the change of holding and no entry happens inside a trend |
| Backtester.StepSignal | backtester/backtester.py:146-173 | each step's signal is the change in the position held; it is a side; a trend only stays or goes flat; from flat an upward break sells into a down trend first |
| Backtester.Signals | backtester/backtester.py:117-173 | one signal per day, 0 at day 0, every signal in {BUY, SELL, NONE} |
| Backtester.RunStrategy | backtester/backtester.py:110-176 | the signals array is the state machine's run over the bands and exit bands |
| Backtester.Walk | backtester/backtester.py:143-173 | the loop over the two trend flags writes exactly the state machine's signals |
| Backtester.SignalsSumToHolding | backtester/backtester.py:143-173 | every prefix of the signals sums to the position held, which stays in {-1, 0, 1} |
| Backtester.CumSum | backtester/backtester.py:192 | `cumsum` entry `i` is the sum of the first `i + 1` values |
| Backtester.CalculatePositions | backtester/backtester.py:190-192 | the pnl is the running sum of close times signal |
| Backtester.CalculatePositionsExample | backtester/test/test_backtester.py:51-53 | the pnl of the first test series, ending at -7.5 |
| Backtester.CalculatePositionsFinal | backtester/test/test_backtester.py:54-55 | the second test series ends at 20 |
| Backtester.Run | backtester/backtester.py:65-108 | `ParameterException` exactly when `entry_z_score <= exit_z_score`, reported before any strategy step; otherwise the returns of the pnl; `_validate_params` (lines 104-108) raises exactly when `_z_scores_valid` fails |
| Backtester.Marks | backtester/backtester.py:218-230 | one mark per day |
| Backtester.LongEntryMask | backtester/backtester.py:212 | `z_score < -entry_z_score`, day by day |
| Backtester.LongExitMask | backtester/backtester.py:213 | `z_score >= -exit_z_score`, day by day |
| Backtester.ShortEntryMask | backtester/backtester.py:215 | `z_score > entry_z_score`, day by day |
| Backtester.ShortExitMask | backtester/backtester.py:216 | `z_score <= exit_z_score`, day by day |
| Backtester.AssignWhere | backtester/backtester.py:225-230 | masked assignment writes `v` where the mask holds and nothing else |
| Backtester.Channel | backtester/backtester.py:218-231 | a channel is NaN, 0 at day 0, entries, then exits, forward filled in place |
| Backtester.ChanRunStrategy | backtester/backtester.py:200-235 | the positions are the two filled channels added; an empty series fails |
| Backtester.ChannelValues | backtester/backtester.py:218-231 | a filled channel takes only 0 and its side |
| Backtester.ChanPositions | backtester/backtester.py:225-233 | the forward-filled long channel plus the forward-filled short channel; ChanPositionsInSides proves every day is 0, BUY or SELL once a channel is set |
| Backtester.ChanPositionsInSides | backtester/backtester.py:212-233 | an exit on a day overrides an entry; the long channel is 0 or 1, the short 0 or -1, the position in {-1, 0, 1} |
| Backtester.ChanCalculatePositions | backtester/backtester.py:241-242 | close times signal day by day with no running sum; ChanPnlIsOneDay states it on the Chan positions |
| Backtester.ChanPnlIsOneDay | backtester/backtester.py:240-242 | each Chan pnl entry is the close, its negation or 0 |
| SeriesUtils.DayCount | common/utils.py:14-16 | `day_count` is the number of days that take the start to the end |
| SeriesUtils.DayCountExample | common/test/test_utils.py:17-20 | 2014-07-10 to 2014-08-10 is 31 days |
| SeriesUtils.WorkDaysPerWeek | common/utils.py:29-32 | any seven consecutive steps pass five work days |
| SeriesUtils.WorkDayDelta | common/utils.py:25-33 | the loops end on a weekday `k >= 1` days away in the direction of the count; exactly \|count\| of those days are work days; a count of 0 returns the base date |
| SeriesUtils.WorkDayDeltaUnique | common/utils.py:25-33 | that description determines the result |
| SeriesUtils.WorkDayDeltaExample | common/test/test_utils.py:27-31 | 22 work days before 2014-08-10 is 2014-07-10 |
| SeriesUtils.NaNAsNegInf | common/utils.py:37 | numpy's NaN replacement before the argmax: NaN reads as negative infinity and every other value as itself |
| SeriesUtils.FirstArgMax | common/utils.py:37 | `argmax` of a non-empty column: the first index whose entry, NaN read as negative infinity, no other entry exceeds |
| SeriesUtils.NanArgMax | common/utils.py:37 | `nanargmax` is the first maximum of the column once every NaN reads as negative infinity, so a NaN entry can be picked when every number is negative infinity; none exactly when every entry is NaN |
| SeriesUtils.NanArgMaxOfNumbers | common/utils.py:37 | when some entry is a number above negative infinity, the picked entry is a number and the first maximum among the entries that are not NaN |
| SeriesUtils.NanArgMaxLeadingNaN | common/utils.py:37 | on [NaN, -inf] numpy picks index 0, the NaN |
| SeriesUtils.Pick | common/utils.py:37 | `row[index]` with Python's negative indices counting from the end |
| SeriesUtils.Column | common/utils.py:37 | `array[:, index]`: one entry per row, each that row's entry at the index |
| SeriesUtils.GetMaxVector | common/utils.py:36-37 | the row holding the first maximum of column `index` (negative indices counting from the end) with NaN read as negative infinity; IndexError exactly when the index lies outside some row, ValueError exactly when the column is all NaN; backtester/utils.py:13-14 is the same code |
| SeriesUtils.FirstColumnMaxUnique | common/utils.py:36-37 | the description of the picked row determines the row |
| SeriesUtils.GetMaxVectorExample | common/test/test_utils.py:33-35 | [6, 7, 8]; the same test is in backtester/test/test_utils.py:14-16 |
| SeriesUtils.GetMaxVectorNaNExamples | common/test/test_utils.py:37-39 | with a NaN in row 0, [7, 8, 9], and the same row for the last column; the same test is in backtester/test/test_utils.py:18-20 |
| SeriesUtils.FFilled | common/utils.py:40-44 | same length, index 0 and non-NaN entries kept, each later NaN takes the filled value before it |
| SeriesUtils.FFill | common/utils.py:40-44 | the in-place loop leaves the array equal to `FFilled` of its old contents; backtester/utils.py:17-21 is the same loop |
| SeriesUtils.FFilledNoNaN | common/utils.py:40-44 | when the first entry is a number, no NaN is left |
| SeriesUtils.FFilledFrom | common/utils.py:40-44 | every filled entry copies the first entry or an earlier non-NaN entry |
| SeriesUtils.FFilledUnique | common/utils.py:40-44 | any series meeting `ffill`'s contract is its result |
| SeriesUtils.FFilledIdempotent | common/utils.py:40-44 | filling twice is filling once |
| SeriesUtils.FFilledExample | common/test/test_utils.py:41-45 | the unit test of `ffill`; the same test is in backtester/test/test_utils.py:22-26 |
| SeriesUtils.Lag | common/utils.py:47-50 | same length, `empty_term` first, then the data shifted right; an empty series fails; backtester/utils.py:24-27 is this with the fill fixed at 0 |
| SeriesUtils.LagExamples | common/test/test_utils.py:47-55 | [0, 1, 2, 3, 4], and a NaN fill; the first is also backtester/test/test_utils.py:28-31 |
| SeriesUtils.CalculateReturns | common/utils.py:53-62 | 0 at index 0 and wherever the day before is 0; otherwise the relative change |
| SeriesUtils.ReturnsReproducePnl | common/utils.py:53-62 | from a nonzero entry, growing by the next return gives the next entry |
| SeriesUtils.CalculateReturnsExample | common/test/test_utils.py:57-65 | the test series in exact fractions |
| SeriesUtils.LogChange | common/utils.py:65-74 | a logarithm exactly when the day before is nonzero and the ratio positive, of that ratio; 0 otherwise |
| SeriesUtils.CalculateLogReturns | common/utils.py:65-74 | 0 at index 0, and each later entry is the log change from the day before |
| SeriesUtils.CalculateLogReturnsExample | common/test/test_utils.py:68-75 | the leading zeros, the ratio 27.5/15, and 0 for the final ratio -0.75 |
| VixFuturesPca.PriceValue | backtester/vix_futures_pca.py:124-128 | NaN exactly when the date is missing, otherwise the stored price |
| VixFuturesPca.PriceAt | backtester/vix_futures_pca.py:136 | a missing year raises a KeyError, a missing month an IndexError, and a missing date reads as NaN |
| VixFuturesPca.PricesFor | backtester/vix_futures_pca.py:122-154 | a successful lookup gives exactly `count` values |
| VixFuturesPca.PricesForMeaning | backtester/vix_futures_pca.py:130-154 | the values are those of the consecutive months in order; the lookup raises exactly when a month is missing, never for a missing date |
| VixFuturesPca.PricesForStep | backtester/vix_futures_pca.py:141-152 | one more month appends its value or raises its error |
| VixFuturesPca.RaisedPersists | backtester/vix_futures_pca.py:130-154 | once a lookup raises, more months raise the same error |
| VixFuturesPca.GetFuturesPrices | backtester/vix_futures_pca.py:122-154 | the counted loop returns the lookup of `max(1, month_count)` consecutive months |
| VixFuturesPca.Interpolate | backtester/vix_futures_pca.py:115-119 | NaN exactly when either price is NaN; a zero horizon raises ZeroDivisionError |
| VixFuturesPca.WeightsSumToOne | backtester/vix_futures_pca.py:118-119 | the weights `m/n` and `(n-m)/n` sum to one |
| VixFuturesPca.InterpolationWeights | backtester/vix_futures_pca.py:118-119 | the result is the far price moved towards the near one by the weight `m/n` |
| VixFuturesPca.InterpolationOfEqualPrices | backtester/vix_futures_pca.py:118-119 | equal prices interpolate to themselves |
| VixFuturesPca.InterpolationBetween | backtester/vix_futures_pca.py:118-119 | with the near expiry within the horizon, the result lies between the two prices |
| VixFuturesPca.ExpiryChain | backtester/vix_futures_pca.py:99-106 | every expiry the loop visits is a valid date |
| VixFuturesPca.ChainStep | backtester/vix_futures_pca.py:104-106 | each visited expiry is strictly after the one before |
| VixFuturesPca.ChainIncreasing | backtester/vix_futures_pca.py:103-106 | visited expiries strictly increase, which is why the loop terminates |
| VixFuturesPca.StaysPast | backtester/vix_futures_pca.py:103 | once an expiry is not before the target, later ones are not either |
| VixFuturesPca.BracketUnique | backtester/vix_futures_pca.py:97-106 | there is exactly one near contract for a target |
| VixFuturesPca.ChainFollows | backtester/vix_futures_pca.py:99-106 | each expiry of the chain is the next expiry after the day following the one before |
| VixFuturesPca.BracketExpiries | backtester/vix_futures_pca.py:99-106 | the loop stops at the near contract for the target and the one after it |
| VixFuturesPca.StartScan | backtester/vix_futures_pca.py:99-101 | the first two expiries start the scan |
| VixFuturesPca.Scan | backtester/vix_futures_pca.py:103-106 | the loop ends with the next expiry not before the target |
| VixFuturesPca.Advance | backtester/vix_futures_pca.py:104-106 | one step moves one expiry along and brings the next expiry closer to the target |
| VixFuturesPca.Quote | backtester/vix_futures_pca.py:108-119 | the two prices from the near expiry's month, its maturity in days, and their interpolation, with a raised lookup passed through |
| VixFuturesPca.GetVixFutureNDays | backtester/vix_futures_pca.py:91-119 | the value is the quote of the near contract for the horizon `n - 1` days ahead |
| MarketMaking.PnlChange | backtester/market_making.py:94-95 | side times price times quantity of the fill |
| MarketMaking.RemoveAt | backtester/market_making.py:77 | `list.remove` at the visited slot: the rest shifts down by one |
| MarketMaking.Survivors | backtester/market_making.py:74-77 | the reference reading of remove_by_price on the original list: an entry at the price goes, and the entry after a removed one is passed over; the Survivors lemmas state what it keeps |
| MarketMaking.RemovingFrom | backtester/market_making.py:74-77 | the loop as the list iterator runs it, the index moving on after each removal; RemovingFromMeaning proves it equal to Survivors |
| MarketMaking.Settled | backtester/market_making.py:85-92 | the reference reading of _update_position on the original list: a visited match is reduced or removed, and the entry after a removed one is passed over |
| MarketMaking.Gain | backtester/market_making.py:85-95 | the pnl the loop books, one PnlChange per visited match; GainCountsVisits states it |
| MarketMaking.Updating | backtester/market_making.py:85-92 | the _update_position loop as the list iterator runs it; UpdatingMeaning proves it equal to Settled and Gain |
| MarketMaking.RemovingFromMeaning | backtester/market_making.py:74-77 | the iterator's run of `remove_by_price` is `Survivors` of the list |
| MarketMaking.UpdatingMeaning | backtester/market_making.py:85-92 | the iterator's run of `_update_position` is `Settled`, booking `Gain` |
| MarketMaking.SurvivorsKeepOtherPrices | backtester/market_making.py:74-77 | entries at other prices survive, unchanged and in order |
| MarketMaking.SurvivorsDropOnlyThePrice | backtester/market_making.py:74-77 | survivors are a sub-multiset, and every dropped entry is at the price |
| MarketMaking.SurvivorsWithoutAdjacent | backtester/market_making.py:74-77 | with no two consecutive entries at the price, exactly the other prices survive |
| MarketMaking.SurvivorsWithAdjacent | backtester/market_making.py:74-77 | two consecutive entries at the price leave one of the price behind |
| MarketMaking.OtherPricesHaveNone | backtester/market_making.py:76 | the corrected filter keeps no entry at the price |
| MarketMaking.RemoveByPriceComplete | backtester/market_making.py:74-77 | the routine removes every entry at the price exactly when no two consecutive entries share it |
| MarketMaking.RemoveByPriceLeavesNeighbour | backtester/market_making.py:74-77 | two bids at 98, removed by price, leave the second |
| MarketMaking.SettledKeepsOtherPrices | backtester/market_making.py:85-92 | a fill leaves entries at other prices unchanged and in order |
| MarketMaking.SettledStaysPositive | backtester/market_making.py:88-91 | quantities stay positive: a larger one is reduced, the rest removed |
| MarketMaking.SettledWithoutMatch | backtester/market_making.py:85-92 | a fill at a price with no entry changes neither list nor pnl |
| MarketMaking.GainCountsVisits | backtester/market_making.py:92-95 | the pnl booked is `side * price * qty` once per visited match |
| MarketMaking.VisitsBounded | backtester/market_making.py:85-92 | a fill visits no more entries than rest at its price |
| MarketMaking.RemoveByPriceExamples | backtester/test/test_market_making.py:10-30 | the buy-side sequence of removals |
| MarketMaking.Positions.constructor | backtester/market_making.py:55-59 | both lists empty and pnl 0 |
| MarketMaking.Positions.AddPosition | backtester/market_making.py:61-65 | appends to the side's list; any other side is ignored; pnl and the other list unchanged |
| MarketMaking.Positions.RemovePosition | backtester/market_making.py:67-71 | the side's list becomes its `Survivors`; nothing else changes; other sides are ignored |
| MarketMaking.Positions.RemoveByPrice | backtester/market_making.py:73-77 | the loop, skipping the entry after each removal, leaves `Survivors` |
| MarketMaking.Positions.RemoveAllByPrice | backtester/market_making.py:73-77 | corrected removal: exactly the entries at other prices, in order |
| MarketMaking.Positions.ProcessFill | backtester/market_making.py:79-83 | settles the fill against its side's list and adds its gain to pnl; other sides are ignored |
| MarketMaking.Positions.UpdatePosition | backtester/market_making.py:85-92 | the loop leaves `Settled` and adds `Gain` to pnl; the stored lists are unchanged |
| MarketMaking.Positions.UpdatePnl | backtester/market_making.py:94-95 | pnl grows by `side * price * qty` |
| MarketMaking.BuySideScenario | backtester/test/test_market_making.py:10-30 | three bids, then removal of 98 leaves 99 and 97, and removing the rest leaves none |
| BacktestRunner.OrderResultsDesc | backtester/backtest_runner.py:130-131 | `sorted(reverse=True, key=score)` as an insertion sort; proved a permutation, descending and stable by the three lemmas below |
| BacktestRunner.Insert | backtester/backtest_runner.py:131 | places a result before the first one scoring no more than it; InsertPermutes, InsertDescending and InsertWithScore state its effect |
| BacktestRunner.OrderResultsDescPermutes | backtester/backtest_runner.py:130-131 | the ordering is a permutation of its input, of the same length |
| BacktestRunner.OrderResultsDescDescending | backtester/backtest_runner.py:130-131 | scores never rise along the result |
| BacktestRunner.OrderResultsDescStable | backtester/backtest_runner.py:131 | results with equal scores keep their input order |
| BacktestRunner.InsertPermutes | backtester/backtest_runner.py:131 | one insertion adds exactly its element |
| BacktestRunner.InsertDescending | backtester/backtest_runner.py:131 | inserting into a descending list keeps it descending |
| BacktestRunner.InsertWithScore | backtester/backtest_runner.py:131 | an insertion puts the element ahead of the results it ties with |
| BacktestRunner.OrderResultsDescExample | backtester/test/test_backtest_runner.py:7-11 | the four-symbol test ranks T3, T4, T, T2 |
| DataLoader.Join | common/data_loader.py:31 | POSIX `os.path.join` of two parts: an absolute second part replaces the first, and a '/' is added only when the first does not end in one |
| DataLoader.GetPriceFile | common/data_loader.py:30-31 | the symbol's CSV path in the directory; PriceFileRoundTrip proves the directory prefix and base name |
| DataLoader.PriceFileRoundTrip | common/data_loader.py:30-31 | the price file path starts with the directory, and its last component is `name + ".csv"` |
| DataLoader.BaseNameAfterSlash | common/data_loader.py:31 | a name without '/' joined after a directory is the path's last component |
| DataLoader.GetPriceFileExample | common/test/test_data_loader.py:20-22 | 'test' in 'someDir' is 'someDir/test.csv' |
| DataLoader.IndexOf | common/data_loader.py:141 | `list.index` is the first position holding the name |
| DataLoader.GetDates | common/data_loader.py:133-146 | the listing from the first occurrence of the start through the first occurrence of the end, an absent bound leaving that side open; stated by the GetDates lemmas |
| DataLoader.GetDatesContiguous | common/data_loader.py:133-146 | the window is one contiguous slice of the listing |
| DataLoader.GetDatesBounds | common/data_loader.py:140-144 | a start in the listing is the window's first element, an end its last |
| DataLoader.GetDatesOpenStart | common/data_loader.py:137-141 | a start absent from the listing opens it at position 0 |
| DataLoader.GetDatesOpenEnd | common/data_loader.py:138-144 | an end absent from the listing runs to its end |
| DataLoader.GetDatesWindow | common/data_loader.py:133-146 | on the sorted listing a name is in the window exactly when it lies between the present bounds, both included |
| DataLoader.BelowAsymmetric | common/data_loader.py:135 | Python's string order is irreflexive and asymmetric |
| DataLoader.SortedPosition | common/data_loader.py:135 | in the sorted listing, position order is string order |
| DataLoader.GetDatesExamples | common/test/test_data_loader.py:100-116 | the four test windows |

## Left out

- Sharpe ratio, Sortino ratio and maximum drawdown are not modelled. `_calculate_sharpe_ratio` is floating-point statistics (`sqrt`, `std`), and the `utils` versions are not defined in any file of this model.
- `talib.BBANDS` is a foreign library. The upper, middle and lower bands, and the Chan z-score, are inputs.
- The returns division at the end of `volatility_etns.run` is floating-point and undefined when the notional is 0; `Run` stops at the cash series.
- IEEE rounding is not modelled: prices and cash are exact reals, so rounding near integer boundaries in `astype(int)` is out of scope. NaN and the infinities are the `Float` datatype.
- numpy broadcasting and array shapes are sequences of matching lengths, stated as preconditions.
- `create_fill`, `run_simulation` and `main` of the order book use randomness and plotting.
- `create_date` (`strptime`) and `work_day_count` (`np.busday_count`) are thin wrappers over libraries.
- File, CSV and directory I/O of the loaders, logging, printing and plotting are left out. In particular, `load_vix_future`, `get_vix_future_30/45`, `load_prices` and the PCA `main` are not modelled.
- `get_dates` takes the directory listing after its sort as a sequence; `os.listdir` is not modelled.
- `datetime`'s year range (MINYEAR..MAXYEAR) and its OverflowError are not modelled; years are unbounded.
- SeriesUtils.DayCount: dates carry no time of day. On `datetime` values `(end - start).days` floors, so a span that is negative and not a whole number of days counts one day more than its whole days; the model counts whole days only.
- SeriesUtils.WorkDayDelta: the date carries no time of day; the source adds whole-day `timedelta`s, which keep the time of day unchanged.
- VolatilityEtns.Truncate: share quantities are unbounded integers. The source keeps orders and positions in 64-bit `np.int` arrays, and a target beyond 2^63 in `astype(int)`, or a sum of holdings that overflows, would wrap; the model does not wrap.
- BacktestRunner.OrderResultsDesc: scores are reals. A Sharpe ratio can be NaN (a zero mean over a zero standard deviation), and Python's `sorted` with NaN keys gives an order that depends on the sort's comparisons; the model has no NaN score, and InsertDescending and OrderResultsDescDescending hold for real scores only.
- VixFuturesPca.GetVixFutureNDays: the horizon `n` is an integer. The PCA `main` passes floats such as 30.0, which give the same days and the same true division.
- VolatilityEtns.CalcAdjustments: requires nonzero prices. A zero price divides by zero in numpy and gives an infinity whose `astype(int)` is undefined.
- MarketMaking.Positions.RemoveByPrice: positions are values, not objects. Python's `remove` takes out the first entry equal to the visited one, which is the same one only when the positions are distinct objects. The same object listed twice and aliasing between lists are not modelled; removal happens at the visited slot.
- MarketMaking.Positions.UpdatePosition: in the source, decrementing a position's `qty` changes an object that the caller also holds. Here the updated entry is a new value in the list, and the method returns the list for the caller to store back.
- MarketMaking.Positions.ProcessFill: the side is an integer. numpy's `np.sign` gives ±1.0, which compares equal to ±1, and a side of 0 is ignored like any other unknown side.
- The order book's `RemovePosition` and `ProcessFill` keep the as-written behaviour (see Findings). The corrected removal is `RemoveAllByPrice`, and the class does not use it.

## Findings

| source | as written | input that shows it | evidently intended | confidence | as-written member | corrected member |
|---|---|---|---|---|---|---|
| backtester/volatility_etns.py:317-323 and backtester/vix_futures_pca.py:157-165 | after this month's expiry, the expiry of the month of the date thirty days later | 2015-01-31: thirty days later is 2015-03-02, so the result is 2015-03-18, skipping the February expiry 2015-02-18 | the expiry of the following calendar month, the earliest settlement date after the date | not executed | VixExpiry.NextExpirySkipsFebruary | VixExpiry.NextExpiryIntendedIsEarliest |
| backtester/market_making.py:74-77 | `remove` inside a `for` loop over the same list skips the entry that slides into the freed slot | two bids at 98.0; removing price 98.0 leaves the second | every entry at the price is removed | not executed | MarketMaking.RemoveByPriceLeavesNeighbour | MarketMaking.Positions.RemoveAllByPrice |

`VixExpiry.NextExpiryAgreesUnlessLateJanuary` states exactly where the two
expiry routines differ. `VixExpiry.NextExpiryIntended` is the corrected
function, and `VixExpiry.NextExpiryIntendedKeepsFebruary` shows it on the
same date. The PCA chain (`VixFuturesPca.ExpiryChain`) follows the routine
as written. Its first call is on the current date, which can show the same
skip. Every later call is on the day after an expiry, at most the 23rd of a
month, and from there thirty days later is always the following month. `MarketMaking.RemoveByPriceComplete` states
exactly when `remove_by_price` as written leaves an entry behind.
