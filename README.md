# Futures grid trading bot — Dafny model

The bot is a desktop application that runs a one-sided "grid" strategy on a
crypto-futures exchange. It computes a ladder of limit-order prices evenly spaced
from an upper bound down to a lower bound. It places one order per level through
an exchange client and keeps an estimate of the maker fees paid. It can cancel
every open order and flatten every position. It also polls the account to show
the balance, the value of open positions and the running profit and loss.

This project models the deterministic logic of the `GridTradingBot` class in
`bot.py` over exact `real` arithmetic:

- `grid.dfy` (module `GridMath`) holds the ladder formulas and the grid preview.
  The preview is the pure function `Preview` plus the loop `PreviewGrid`, which is
  proved equal to it.
- `submission.dfy` (module `Submission`) specifies what grid creation leaves
  behind. `Placed` gives the records of the accepted levels and `FeeSum` their
  fees. The lemmas there cover counts, fees, order and the side tag.
- `positions.dfy` (module `Positions`) specifies the flattening orders that
  "close all positions" sends and the sums the account overview shows.
- `symbols.dfy` (module `Symbols`) models Python's `str.replace` and the symbol
  sent with the leverage request.
- `bot.dfy` (module `Bot`) holds the session class `GridTradingBot`. Its fields
  are the exchange connection, the symbol, `gridLevels`, `totalFees`,
  `realizedPnl`, `startBalance`, the overview display and whether a next tick is
  scheduled. Its methods `CreateGridBot`, `CloseAllPositions` and
  `UpdateAccountOverview` are each proved against the specification functions
  above. `Connect` states its new state outright.
- `exchange.dfy` (module `Exchange`) holds the values that cross the exchange
  boundary.

Each call into the exchange client becomes an oracle parameter:

- a fetch is an `Option` (`None` when the call raises);
- each limit order is a `Placement` chosen by level index;
- each cancel or close is a success flag chosen by item index.

Where `bot.py` departs from the intended design of the bot, the model follows
the code:

- **Rescheduling.** The overview tick schedules the next tick only on success,
  not after every tick. The constructor's own tick finds no exchange, so it
  schedules nothing (the constructor ensures `!tickPending`). `Connect` does not
  schedule one either.
- **No validation in `create_grid_bot`.** It does not check the bounds, the grid
  count, the investment or the leverage.
  - A grid count of 0 or 1 divides by zero before anything changes.
  - A negative count walks no level but still empties `gridLevels`.
  - A level priced at zero raises outside the per-order `try` (`bot.py:632`).
    That stops the walk and keeps what was already placed and charged.
- **Fees.** `totalFees` grows by the same per-order fee for each accepted order.
  It is never reset. It can only fall when the investment and the leverage have
  opposite signs, which nothing rejects (`GridFeesNonNegative`).
- **Latching the start balance.** The start balance is latched as soon as the
  balance fetch succeeds. This happens even when the position fetch that follows
  raises.
- **Closing.** `CloseAllPositions` empties `gridLevels` only when both fetches
  succeed. A failed fetch goes to the outer handler first.
- **Zero lower bound.** Nothing checks that the lower bound is positive. The
  ladder lemmas take `lower > 0` as a hypothesis. `ZeroPriceNeedsNonPositiveLower`
  shows that the zero-price failure needs a lower bound that is not positive.

## Model

| member | source | states |
|---|---|---|
| `GridMath.Step` | bot.py:564-565 | the `count - 1` steps together span exactly `upper - lower` |
| `GridMath.PerGrid` | bot.py:566 | the `count` per-level shares add up to the total investment |
| `GridMath.Size` | bot.py:582 | a level's size times its price is the leveraged per-level share |
| `GridMath.Preview` | bot.py:557-566 | `upper <= lower` is rejected first, then `count < 2`; a successful preview has `count` levels from `upper` down to `lower` |
| `GridMath.PreviewGrid` | bot.py:546-588 | the preview loop returns the same as `Preview`: an error, or every level computed from the top |
| `GridMath.EndPoints` | bot.py:580-581 | level 0 is priced at the upper bound and level `count - 1` at the lower bound |
| `GridMath.PriceDecreasing` | bot.py:581 | with `upper > lower`, a later level is always strictly cheaper |
| `GridMath.PositivePrices` | bot.py:581-582 | with `lower > 0`, every level is priced at least at `lower`, so no size divides by zero |
| `GridMath.LadderShape` | bot.py:557-582 | for `upper > lower > 0` and `count >= 2`, the preview succeeds with exactly `count` strictly falling levels from `upper` to `lower` |
| `GridMath.ZeroPriceNeedsNonPositiveLower` | bot.py:581-582 | a preview only fails on a zero price when the lower bound is not positive |
| `GridMath.LevelNotional` | bot.py:566-582 | every level's notional is `investment / count * leverage` |
| `GridMath.UniformNotional` | bot.py:580-582 | levels with equal notional sum to that notional per level |
| `GridMath.LadderTotalNotional` | bot.py:564-582 | the whole ladder's notional is `investment * leverage` |
| `GridMath.WorkedExample` | bot.py:564-582 | bounds 90 to 100, 3 grids, 300 invested at leverage 1 give 100 per level at prices 100, 95 and 90 |
| `Symbols.ReplaceAddsNothing` | bot.py:608 | `replace` only produces characters of the input or of the replacement |
| `Symbols.DeleteCharRemovesAll` | bot.py:608 | deleting `'/'` leaves no `'/'` |
| `Symbols.ReplaceAbsent` | bot.py:608 | a string without the pattern's first character is left unchanged |
| `Symbols.ReplaceSkipsPrefix` | bot.py:608 | a prefix without the pattern's first character passes through unchanged |
| `Symbols.ReplaceAtFront` | bot.py:608 | an occurrence at the front is replaced and scanning resumes after it |
| `Symbols.NoSlashInLeverageSymbol` | bot.py:608 | the leverage symbol never contains `'/'` |
| `Symbols.PlainSymbolUnchanged` | bot.py:608 | a symbol with no `'/'` and no `':'` is sent as it is |
| `Symbols.SlashDeleted` | bot.py:608 | deleting `'/'` from `X/USD:USD` leaves `XUSD:USD` |
| `Symbols.SuffixDeleted` | bot.py:608 | deleting a trailing `:USD` from a string without `':'` leaves the rest |
| `Symbols.MarketSymbol` | bot.py:608 | `X/USD:USD` is sent as `XUSD` when `X` has no `'/'` or `':'` |
| `Symbols.MarketSymbols` | bot.py:69 | the three configured markets are sent as `BTCUSD`, `ETHUSD` and `SOLUSD` |
| `Symbols.SuffixCanSurvive` | bot.py:608 | a single pass can leave a `:USD` (`::USDUSD` becomes `:USD`) |
| `Positions.Flatten` | bot.py:694-705 | the closing order of a position holding contracts exactly offsets that position's signed exposure |
| `Positions.Requests` | bot.py:684-708 | the requests of a run of attempts, one per attempt, in order |
| `Positions.RequestsIgnoreAnswers` | bot.py:693-708 | the closing requests are the same whatever the client answers, so one failure neither stops nor changes the others |
| `Positions.CloseFlattens` | bot.py:693-705 | the signed volume of the closing orders exactly offsets the signed exposure of the positions holding contracts |
| `Positions.CloseCount` | bot.py:693-705 | there is one closing request per position with `contracts > 0`, in list order, each for a positive amount |
| `Positions.OpenOnly` | bot.py:522 | a position is kept exactly when it was fetched and holds contracts, and there are no more of them than fetched |
| `Positions.OpenSumsSplit` | bot.py:519-524 | the notional and unrealized sums split over a concatenation of the fetched list |
| `Positions.OpenSumsCommute` | bot.py:519-524 | swapping two runs of the fetched list leaves both sums unchanged |
| `Positions.OpenSumsPermutation` | bot.py:519-524 | any rearrangement of the fetched positions (the same multiset) gives the same notional and unrealized sums |
| `Positions.OpenSumsOfOpenOnly` | bot.py:521-524 | positions without contracts contribute nothing to either sum |
| `Submission.Record` | bot.py:631-658 | an accepted level's record has the level's price, the grid's side and the fee `size * price * maker_fee`, which is the same fee for every level |
| `Submission.PlacedNext` | bot.py:630-664 | walking a level appends its record if it was accepted and nothing if it was rejected |
| `Submission.PlacedLength` | bot.py:653-664 | there is one record per accepted level |
| `Submission.UniformFees` | bot.py:649-651 | records with equal fees sum to that fee per record |
| `Submission.FeeSumAppend` | bot.py:651 | appending a record adds exactly its fee |
| `Submission.PlacedFees` | bot.py:649-664 | the recorded fees are exactly one per-order fee per accepted level and nothing for rejected ones |
| `Submission.PlacedRecords` | bot.py:650-658 | every record carries the per-order fee and the side for the grid's direction |
| `Submission.PlacedInLadderOrder` | bot.py:629-659 | with `upper > lower`, the records are in ladder order (strictly falling prices) |
| `Submission.AllAccepted` | bot.py:629-659 | when every order is accepted, the records are level by level the ladder's |
| `Submission.NoneAccepted` | bot.py:663-664 | when every order is rejected, no record is kept |
| `Submission.GridFeesNonNegative` | bot.py:649-651 | a grid's fees are non-negative when investment and leverage do not have opposite signs |
| `Bot.LatchKeepsFirst` | bot.py:514-515 | the first non-zero balance stays latched, and a zero balance leaves the latch open |
| `Bot.GridTradingBot.constructor` | bot.py:45-92 | start-up has no exchange, no grid, zero fees, PnL and start balance, shows "Not Connected", and schedules no tick |
| `Bot.GridTradingBot.Connect` | bot.py:483-494 | a successful test keeps the client and adopts the chosen market; a failed one drops the client |
| `Bot.GridTradingBot.UpdateAccountOverview` | bot.py:499-544 | shows "Not Connected", "Error" or the overview; latches the start balance; sums only open positions; PnL is `realized + unrealized - fees`; reschedules only on success |
| `Bot.GridTradingBot.CreateGridBot` | bot.py:590-672 | refuses without an exchange and otherwise validates nothing; records exactly the accepted levels in ladder order; charges the fee of each accepted order on top of the old total; a zero price stops the walk |
| `Bot.GridTradingBot.CloseAllPositions` | bot.py:674-714 | refuses without an exchange; sends one cancel per open order and one flattening order per position with contracts, whatever the answers; clears the grid only when both fetches succeed |

## Left out

- The tkinter window, widgets, styling, the status indicator and the text log
  (`bot.py:94-448`) are presentation only. Log lines are not modelled, so
  per-item failures show only as the `ok` flags of the returned attempts.
- The configuration file load and save (`ConfigManager`, and the restore at
  start-up) is file I/O.
- The exchange client is not modelled: authentication, fetches, order
  placement, cancellation and the leverage request. The results of its calls
  are oracle parameters. The leverage request only logs when it fails, so it
  changes no state. `LeverageSymbol` models the symbol it sends.
- The background thread and the `root.after` marshalling in `test_connection`
  are left out. The timer is left out too; only the reschedule decision is
  modelled. `Connect` keeps the state effect of a finished connection test.
- Reading the form fields (`float(...)`, `int(...)`, and the `ValueError` they
  may raise) is left out. The operations take the parsed numbers as a `Grid`.
- Floating-point rounding and the `:.2f` / `:.4f` formatting are left out. The
  model uses exact reals, so endpoint equality and the notional sum hold
  exactly here but only approximately with Python floats.
- The colour and the `+` sign of the PnL label are left out as styling.
- Malformed exchange records are left out: a missing key, a non-numeric
  `contracts`, or a `None` total.
- The fields `grid_spacing`, `position_size`, `take_profit` and `trade_history`
  are never read, so they are left out.
- The minimum order size and tick size of real markets are left out, as the bot
  ignores them too.
