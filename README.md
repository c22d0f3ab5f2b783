# A verified model of the backtesting core of `algorithm_backtester.py`

The backtester replays a price table (one row per date) through a trading
strategy. It has three parts:

- **the cursor** (`MarketData`): `OHLCV` wraps the table, and each `iter()` call
  gives a fresh `OHLCVIter`. Each `next()` turns the row at the cursor into a
  `Data` bar holding the symbol, the row's date, the price column and a map of
  the requested indicator columns. A row that lacks one of those columns raises
  a `KeyError`. The model returns this as `Err(KeyError(column))` and does not
  move the cursor.
- **the portfolio** (`Portfolios`): a flat / in-position machine. Once per bar,
  `update_return_curve` marks the position to market:
  - It grows the current return by `price / last_price` while in position.
  - It appends that return to the return curve.
  - It raises the all-time high.
  - It appends the drawdown `-(1 - r/ath)`.

  `buy` opens a position and `sell` closes it. Selling compounds the realised
  return and appends it to the trades curve. `PortfolioState` is the value of
  the object's eleven fields. Its member functions are the transitions. The
  `Portfolio` class's methods are proved to perform them.
- **the strategy and the engine** (`Backtest`): `Engine.run` walks a fresh
  cursor. For each bar it calls `update_return_curve`, then the strategy's
  `onData`. It returns `cum_return - 1`.

  A strategy is an `Algorithm` object holding a portfolio, a policy and a
  private memory of any type. The policy is a total function: given its
  memory, the bar and the portfolio snapshot, it returns its new memory and the
  buy and sell calls it makes, in order. `onData` runs the policy and then
  issues those calls to the portfolio. The base class's `onData`, which does
  nothing, is the `Idle` policy.

`Engine.Run` is proved equal to `Played`, a function that walks the rows from
the front. Two lemmas then say what a run computes:

- `PlayedReplaysBars`: the portfolio and the memory are `Replay` over the bars
  of every row before the first incomplete one.
- `PlayedResult`: the result is `cum_return - 1` when every row is complete,
  and otherwise the `KeyError` of the first incomplete row.

A held position is followed bar by bar. While a strategy that never sells holds
a position, the current return stays the entry return scaled by the last price
over the buy price (`HoldingTracksPrice`). A strategy that buys at every bar
(`BuyAndHold`) therefore ends a run from a new portfolio with the last return
sample equal to the last price over the first one. This is the buy-and-hold
figure that the `verbose` branch prints at line 146. The run returns
`Ok(0.0)`, because nothing is sold (`BuyAndHoldRun`). `RoundTrip` works one
trade through by hand.

Notes on the source as written:

- **`max_drawdown`** is kept literal, as `max(dds)`. Drawdowns are never
  positive, and the first one is always 0, because the all-time high then is
  that bar's own return. So `max_drawdown` gives 0 whenever a bar has been seen
  (`MaxDrawdownIsZero`). It reports the drawdown nearest zero, not the worst
  one.
- **`CAR`** is `return_curve[-1] ** 1 / num_of_years`. Python parses this as
  `(x ** 1) / y`, which is `x / y`.
- **`sell`** does not re-sync the cash balance: the line that would do it is
  commented out.
- **`run`** does not reset the portfolio. A second run continues from the state
  the first one left (`ReplayConcat`).

Numbers are Dafny `real`s. The date cell is an `int`.

## Model

| member | source | states |
|---|---|---|
| MarketData.FirstMissing | algorithm_backtester.py:51-52 | the index of the first requested indicator column absent from the row: every earlier column is present, and the one at the index is absent (or the index is the list's length) |
| MarketData.Indicators | algorithm_backtester.py:50-52 | the mapping built by the assignment loop holds only requested columns, each mapped to the row's value for it |
| MarketData.IndicatorsExact | algorithm_backtester.py:50-52 | the mapping built by the assignment loop has as keys exactly the requested columns, each mapped to the row's value, whatever their order and repetitions |
| MarketData.ToData | algorithm_backtester.py:53 | a complete row's bar carries the given symbol, the row's date and its price cell |
| MarketData.ToDataIndicators | algorithm_backtester.py:50-53 | a bar's indicator map is keyed by exactly the requested indicator columns and holds the row's values |
| MarketData.MissingColumn | algorithm_backtester.py:51-53 | the column whose lookup raises for an incomplete row is absent from the row and is either the price column or a requested indicator column |
| MarketData.MissingColumnFirst | algorithm_backtester.py:51-53 | the indicator columns are looked up first, in list order: no absent indicator column comes before the one reported, and the price column is reported only when every indicator column is present |
| MarketData.RowToData | algorithm_backtester.py:49-55 | a row yields a bar exactly when it has every requested column, and otherwise the KeyError of the missing column |
| MarketData.FirstBadRow | algorithm_backtester.py:47-56 | the index of the first row that raises: every earlier row converts, and that row does not (or the index is the row count) |
| MarketData.Bars | algorithm_backtester.py:47-55 | the bars of complete rows: one per row, in row order, each that row's bar |
| MarketData.BarsSnoc | algorithm_backtester.py:47-55 | converting one more row appends its bar to the bars so far |
| MarketData.BarsCons | algorithm_backtester.py:47-55 | when the first row is complete, the bars before the first incomplete row are that row's bar followed by the bars of the rest |
| MarketData.BarsPriced | algorithm_backtester.py:53 | a table whose price cells are positive gives bars with positive prices |
| MarketData.OHLCV.constructor | algorithm_backtester.py:23-28 | the wrapper keeps the table, symbol, price and indicator columns, and `size` is the row count |
| MarketData.OHLCV.Iter | algorithm_backtester.py:30-31 | every iteration starts a new cursor at row 0 with the table's attributes |
| MarketData.OHLCVIter.constructor | algorithm_backtester.py:36-42 | the cursor copies the table's attributes and starts at index 0 |
| MarketData.OHLCVIter.Next | algorithm_backtester.py:47-56 | StopIteration exactly when the cursor is past the last row; otherwise the row's bar or its KeyError; the cursor advances only when a bar is returned |
| MarketData.Collect | algorithm_backtester.py:144-145 | draining a fresh cursor gives the bars of all rows in order, or the KeyError of the first incomplete row |
| Portfolios.Max | algorithm_backtester.py:101 | `max` of a non-empty list is an element of it and bounds every element |
| Portfolios.Drawdown | algorithm_backtester.py:98 | a drawdown below a peak at least the return is at most zero, and it is zero exactly at the peak |
| Portfolios.Drawdowns | algorithm_backtester.py:95-98 | the drawdown history has one entry per return sample, none of them positive |
| Portfolios.PortfolioState.Updated | algorithm_backtester.py:85-98 | marking a bar to market appends the new current return to the curve, raises the all-time high to at least that return, and appends its drawdown. In position, the return grows by price/last price, the cash is multiplied by the new return, and the last price becomes the bar's price. Flat, all three are unchanged. No other field changes |
| Portfolios.PortfolioState.Bought | algorithm_backtester.py:106-110 | a buy in position changes nothing; otherwise it opens a position with buy and last price set to the price; no other field changes; it keeps the invariant |
| Portfolios.PortfolioState.Sold | algorithm_backtester.py:112-118 | a sell while flat changes nothing; otherwise it closes the position, compounds the realised return by price/buy price and appends it to the trades curve; cash and all other fields are unchanged; it keeps the invariant |
| Portfolios.Initial | algorithm_backtester.py:66-82 | a new portfolio holds the cash, is flat, has empty curves and satisfies the invariant |
| Portfolios.MaxAppend | algorithm_backtester.py:95-96 | the maximum of a curve with one more sample is that sample when it exceeds the old maximum, and the old maximum otherwise |
| Portfolios.UpdatedValid | algorithm_backtester.py:85-98 | marking to market keeps the invariant: the all-time high stays the maximum of the return curve, the current return stays its last sample, and the drawdowns stay those of the curve |
| Portfolios.FirstDrawdownZero | algorithm_backtester.py:95-98 | the first recorded drawdown of any curve is zero |
| Portfolios.DrawdownsNonPositive | algorithm_backtester.py:98 | in every valid state no recorded drawdown is positive |
| Portfolios.ValidBounds | algorithm_backtester.py:89-98 | in every valid state the drawdown history is as long as the return curve, and the all-time high bounds every return sample and, once a bar has been seen, the positive current return |
| Portfolios.Portfolio.constructor | algorithm_backtester.py:66-82 | the fields start as the initial portfolio for the cash amount |
| Portfolios.Portfolio.UpdateReturnCurve | algorithm_backtester.py:85-98 | the fields afterwards are the state `Updated` gives for the bar's price |
| Portfolios.Portfolio.MaxDrawdown | algorithm_backtester.py:100-101 | ValueError exactly when no drawdown is recorded; otherwise a recorded drawdown that no other exceeds |
| Portfolios.Portfolio.CAR | algorithm_backtester.py:103-104 | IndexError on an empty return curve, ZeroDivisionError for zero years, and otherwise a value that times the years is the last return sample |
| Portfolios.Portfolio.Buy | algorithm_backtester.py:106-110 | the fields afterwards are the state `Bought` gives; the invariant is kept |
| Portfolios.Portfolio.Sell | algorithm_backtester.py:112-118 | the fields afterwards are the state `Sold` gives; the invariant is kept |
| Portfolios.RoundTrip | algorithm_backtester.py:85-118 | a round trip: marked at 100 while flat, bought at 100, marked at 110 and 99, sold at 99, gives the return curve `[1.0, 1.1, 0.99]`, the realised return 0.99 on the trades curve, a flat portfolio, and the cash times 1.1 times 0.99 |
| Portfolios.MaxDrawdownIsZero | algorithm_backtester.py:95-101 | once a bar has been seen, `max_drawdown` as written returns 0 |
| Backtest.Idle | algorithm_backtester.py:62-63 | the base strategy's `onData` keeps its memory and makes no buy or sell call, on every bar and every portfolio |
| Backtest.Applied | algorithm_backtester.py:106-118 | issuing a strategy's calls in order keeps the portfolio fit for the next mark-to-market |
| Backtest.AppliedKeepsMarks | algorithm_backtester.py:106-118 | buy and sell calls leave the return curve, drawdowns, current return, all-time high, cash and initial amount unchanged; each call appends at most one entry to the trades curve and keeps the entries already there |
| Backtest.AppliedValid | algorithm_backtester.py:106-118 | any sequence of buy and sell calls keeps the portfolio invariant |
| Backtest.Reacted | algorithm_backtester.py:62-63 | `onData` on values: the policy's calls applied to the portfolio it was shown, and its new memory |
| Backtest.Turn | algorithm_backtester.py:138-139 | one loop step marks the bar to market before the strategy sees the portfolio, and leaves it fit for the next step |
| Backtest.Replay | algorithm_backtester.py:137-139 | the loop over a sequence of bars, one turn per bar in order |
| Backtest.ReplayAppends | algorithm_backtester.py:137-139 | each bar appends exactly one return sample and one drawdown, whatever the strategy does, and the earlier samples are kept; the sample appended for a bar is the current return of the portfolio the earlier bars left, marked to that bar's price by `update_return_curve` (lines 85-98) |
| Backtest.ReplayValid | algorithm_backtester.py:137-139 | a run over any bars with any strategy keeps the portfolio invariant |
| Backtest.ReplaySnoc | algorithm_backtester.py:137-139 | replaying one more bar is playing one more turn after the others |
| Backtest.ReplayConcat | algorithm_backtester.py:137-139 | nothing is reset between runs: replaying two tables one after the other equals replaying their concatenation |
| Backtest.ReplayCons | algorithm_backtester.py:137-139 | replaying a bar in front of others is playing its turn first, then the rest |
| Backtest.SellsWhileFlat | algorithm_backtester.py:112-113 | sell calls on a flat portfolio change nothing |
| Backtest.NeverBuyingStaysFlat | algorithm_backtester.py:85-118 | a strategy that never buys, starting flat, stays flat. Each bar appends the unchanged current return to the curve. The realised return, the trades curve and the cash stay as they were |
| Backtest.IdleKeepsMemory | algorithm_backtester.py:58-63 | the base strategy's replay never changes its memory |
| Backtest.IdleStaysFlat | algorithm_backtester.py:58-63 | with the base strategy, a flat portfolio stays flat and the memory unchanged; each bar appends the unchanged current return; realised return, trades curve and cash are kept |
| Backtest.BuysWhileHeld | algorithm_backtester.py:106-107 | buy calls in position change nothing |
| Backtest.BuysKeepRealised | algorithm_backtester.py:106-110 | buy calls leave the realised return and the trades curve unchanged |
| Backtest.NeverSellingKeepsRealised | algorithm_backtester.py:106-118 | with a strategy that only ever buys, no trade is realised: the realised return and the trades curve stay as they were over any bars |
| Backtest.UpdatedTracks | algorithm_backtester.py:86-91 | marking a held position to a positive price keeps the current return proportional to the price since the entry (`return * buy price == entry return * last price`); the buy price stays and the last price becomes the bar's |
| Backtest.HoldingTracksPrice | algorithm_backtester.py:85-110 | while a position is held by a strategy that never sells, the current return stays the entry return scaled by last price / buy price; after at least one bar the last price is the last bar's price and the last return sample is the current return |
| Backtest.BuyAndHoldFirstTurn | algorithm_backtester.py:66-110 | a strategy that buys at every bar, starting from a new portfolio, opens its position on the first bar at that bar's price, with return 1 and the curve `[1.0]` |
| Backtest.BuyAndHoldHolds | algorithm_backtester.py:85-110 | buying at every bar from a new portfolio holds the first bar's price as buy price, and the current return follows the price from the entry up to the last bar |
| Backtest.BuyAndHoldReturn | algorithm_backtester.py:85-110 | buying at every bar from a new portfolio over positive bars ends with the last return sample equal to last price / first price, the buy-and-hold figure of line 146, with no trade realised |
| Backtest.BuyAndHoldRun | algorithm_backtester.py:137-156 | a run with that strategy over a complete, positively priced table returns `Ok(0.0)`, since nothing is sold, and the last return sample is the last row's price over the first row's |
| Backtest.Played | algorithm_backtester.py:137-139 | the run's loop from the front: each complete row is played as one turn, and the first incomplete row stops the run with its KeyError |
| Backtest.PlayedCons | algorithm_backtester.py:137-139 | a complete first row is played as one turn before the rest of the rows |
| Backtest.PlayedReplaysBars | algorithm_backtester.py:137-139 | a run leaves the portfolio and the strategy memory that replaying the bars of every row before the first incomplete one gives |
| Backtest.PlayedResult | algorithm_backtester.py:137-156 | a run returns `cum_return - 1` of the final portfolio when every row is complete, and otherwise the KeyError of the first incomplete row |
| Backtest.Algorithm.constructor | algorithm_backtester.py:58-60 | a strategy holds its portfolio, its policy and its initial memory |
| Backtest.Algorithm.OnData | algorithm_backtester.py:62-63 | the portfolio and memory after `onData` are those `Reacted` gives: the policy's calls made one by one on the shared portfolio |
| Backtest.Engine.constructor | algorithm_backtester.py:123-126 | the engine holds the strategy and a new table wrapper with the given symbol and columns |
| Backtest.Engine.Feed | algorithm_backtester.py:138-139 | one loop step on the objects performs `Turn` |
| Backtest.Engine.Run | algorithm_backtester.py:128-156 | the final portfolio, the strategy memory and the result are those `Played` gives for the table, starting from the portfolio as it was, not reset |

## Left out

- Floating point: returns, prices and cash are exact `real`s, so float64
  rounding, infinities and NaN are not modelled.
- The `verbose` branch of `run` (lines 141-146) is not modelled. Printing is
  I/O. It also iterates the table again for a buy-and-hold figure. On an empty
  table with a fresh portfolio, `max_drawdown` at line 143 raises a ValueError
  before that. Otherwise the `[0]` index at line 144 raises an IndexError on an
  empty table.
- Collect: models the re-iteration of lines 144-145 by the bars it produces.
  The comprehension keeps only each bar's `Price`; `Collect` returns the whole
  bars, whose `price` fields are that list.
- The `plot` branch of `run` (lines 148-155): plotting is I/O.
- `Data.__str__` (lines 15-16): string formatting for printing.
- `run_algorithm` (lines 162-165): a wrapper that builds an `Engine` with the
  default price column and calls `run`. It has no `return`, so it discards the
  result of `run` and gives `None`. It adds nothing beyond `Engine.Run`.
- `OHLCVIter.__iter__` (lines 44-45) returns the cursor itself. It is only
  there so that Python's `for` accepts the cursor.
- `Engine.df` (line 125): it is only read by the plot branch.
- Default arguments (`'Adj Close'`, `[]`): every model member takes all its
  arguments explicitly.
- Pandas itself is not modelled:
  - A row is a map from column name to value plus a date cell.
  - A table is a sequence of rows.
  - `.item()` on a one-row slice is a plain lookup.
  - A missing `Date` column is not modelled; every row has a date.
  - The date is held apart from the other cells. So a price column or an
    indicator column named `Date` is absent from `cells`, and the model gives
    `Err(KeyError("Date"))` where the source returns the row's date cell.
  - The table is held as a value, a snapshot of the rows when the `OHLCV`
    wrapper is built. The source keeps a reference to the caller's DataFrame
    and reads it on every `next()`, with `size` fixed at construction (line
    26). Changes the caller makes to the DataFrame afterwards are not
    modelled.
- Strategies are limited to policies. `onData` may only compute a new private
  memory and issue `buy`/`sell` calls on its own portfolio. Arbitrary Python
  side effects, exceptions raised by the strategy, and strategies without a
  `portfolio` attribute are left out.
- Backtest.Engine.Run: requires positive price cells and a portfolio fit to
  divide (`Ready`: a positive current return and, in position, positive buy and
  last prices). The source needs no such thing. A zero price while flat does
  nothing, since lines 86-93 divide only in position. A zero price in position
  makes the next mark-to-market raise a ZeroDivisionError at line 87, and line
  98 raises one while the all-time high is still 0. Negative prices run without
  error and give negative returns and drawdowns below -1 (line 98). None of
  these paths is modelled. The invariant `Valid` is kept separately
  (`ReplayValid`).
- Backtest.Algorithm.OnData: requires `Ready` of the portfolio for the same
  reason.
- Portfolios.Portfolio.UpdateReturnCurve: requires a positive current return
  and, in position, positive last and bar prices. Line 98 divides by the
  all-time high, which stays 0 while the return has never been positive; line
  87 divides by the last price. The requires keeps both divisions defined for
  this bar and the next. The ZeroDivisionError and negative-return paths of the
  source are not modelled.
- Portfolios.Portfolio.Buy: the price is typed positive (`Price`). The source
  accepts any price at lines 106-110. A buy at 0 makes the next mark-to-market
  divide by zero; a negative buy price is accepted silently and gives negative
  returns. Neither is modelled.
- Portfolios.Portfolio.Sell: requires a non-zero buy price while in position.
  The source divides by it.
