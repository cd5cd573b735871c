# CryptoCompass bot core in Dafny

CryptoCompass is a single-owner Telegram bot that records bitcoin purchases.
It reports the portfolio's value against a fixed goal of 100000 dollars and
projects its value at a target price. This project models the two parts of
`main.py` that hold logic:

- **The dialog state machine.** Every handler first checks the owner id.
  The add-purchase flow asks for an amount, then a price, and then appends
  one row to the `purchases` table. The moonshot flow asks for a target
  price and reports the projected value and gain. Input that does not parse
  as a number repeats the step. The model is the class `Dialog.Bot`:
  - its fields are the conversation state, `user_data["amount"]` and the
    ledger;
  - it has one method per handler;
  - `Step` routes one incoming message the way the two `ConversationHandler`s
    and the report handlers are wired.
- **The portfolio arithmetic.** It covers the SQL aggregates `SUM(amount)` and
  `SUM(total)`, each defaulting to 0 when it is NULL. It also covers the
  progress report's value, profit, guarded profit percent, progress percent
  and the distance to the goal: unclamped on the text line, clamped at 0 for
  the chart. The moonshot projection is here too. These are `real` functions
  in `Portfolio` over the ledger of module `Ledger`, which also models the
  history query's `ORDER BY date DESC`.

External inputs become parameters:
- `float()` is the bot's `parse` function, supplied to its constructor.
- The CoinGecko spot price is the `btcPrice` argument.
- SQLite's `datetime('now')` is the `now` argument.
- The owner id read from the environment is the constructor's `owner`.

Files:
- `wrappers.dfy`: `Option`.
- `ledger.dfy`: purchases, sums, aggregates, the history order.
- `portfolio.dfy`: the progress snapshot and the moonshot projection.
- `dialog.dfy`: the guard, the handlers and the routing.

Facts about `main.py` that shape the model:
- `float()` accepts any number, including negatives, and nothing checks the
  sign, so no positivity is assumed or proved.
- `user_data["amount"]` is never deleted when a flow ends, so `amount` keeps
  its last value.
- The menu labels are exactly `main.py`'s (main.py:60-61, 265-286).
- The database file is reopened at start-up and the table is created only if
  it does not exist (main.py:23-36), so a bot starts from the rows already
  stored.

## Model

| member | source | states |
|---|---|---|
| `Ledger.NewPurchase` | main.py:113-121 | the inserted row holds the entered amount and price and the insertion time, and its total is amount × price |
| `Ledger.Recorded` | main.py:115-121 | any sequence of completed purchases gives a ledger with one row per purchase, each with total = amount × price |
| `Ledger.RecordedRows` | main.py:115-121 | row i of the ledger built by completed purchases is exactly the row made from the i-th amount, price and time entered |
| `Ledger.SqlSum` | main.py:143-144 | SQL SUM is NULL exactly when the table is empty, and otherwise the sum of the column |
| `Ledger.Aggregate` | main.py:143-146 | `SUM(amount)` and `SUM(total)` with the `or 0` default are the plain column sums, (0, 0) on an empty ledger (lemma `Ledger.AggregateIsSum` states the same for callers) |
| `Ledger.TotalBtc` | main.py:242-243 | `SUM(amount)` with the `or 0` default is the sum of the amounts, 0 on an empty ledger |
| `Ledger.AggregateIsSum` | main.py:143-146 | the two aggregates are the column sums with the `or 0` default, (0, 0) on an empty ledger; the moonshot's `SUM(amount)` (main.py:242-243) equals the first |
| `Ledger.AggregateAppend` | main.py:118-121 | appending a row adds exactly its amount and its total to the two aggregates |
| `Ledger.AggregateOfPurchases` | main.py:143-146 | on a ledger of completed purchases, the invested total is the sum of amount × price over the rows |
| `Ledger.AggregateOfRecorded` | main.py:115-121 | after any sequence of completed purchases, the aggregates equal the sum of the amounts entered and the sum of amount × price entered |
| `Ledger.ByDateDescending` | main.py:203-204 | the history rows are sorted by date, most recent first, and are a permutation of the ledger |
| `Portfolio.ProfitPercent` | main.py:151 | with money invested, percent × invested = profit × 100; with nothing (or a negative amount) invested, exactly 0 |
| `Portfolio.ProgressPercent` | main.py:153-154 | percent × goal = value × 100 |
| `Portfolio.Remaining` | main.py:170 | the chart's remaining segment is max(goal − value, 0): never negative, never below goal − value |
| `Portfolio.Progress` | main.py:143-154 | value = bitcoin held × current price, profit = value − invested, the guarded profit percent, progress percent against 100000, the text's unclamped goal − value and the chart's clamped remainder |
| `Portfolio.EmptyPortfolio` | main.py:145-154 | an empty ledger reports zero holdings, value, profit, profit percent and progress at every price |
| `Portfolio.GoalReached` | main.py:153-170 | the goal is reached exactly when progress ≥ 100 %, exactly when the chart's remainder is 0, exactly when the text's distance is ≤ 0 |
| `Portfolio.ChartSegments` | main.py:162-170 | below the goal the two chart segments add up to the goal; above it the chart's remainder is 0 while the text line's distance is negative |
| `Portfolio.ProfitPercentSign` | main.py:150-151 | with money invested, profit percent is positive, zero or negative exactly as the profit is |
| `Portfolio.ProgressScenario` | main.py:143-154 | 0.5 BTC bought at 60000 and valued at 80000: invested 30000, value 40000, profit 10000, profit 100/3 %, progress 40 % |
| `Portfolio.Project` | main.py:245-246 | the projected value is holdings × target, and the gain is holdings × (target − current price) |
| `Portfolio.Moonshot` | main.py:241-246 | with SUM(amount) as the holdings, the projected value is holdings × target and the gain is holdings × (target − current price) |
| `Portfolio.MoonshotMatchesProgress` | main.py:245-246 | the projected value equals the progress report's value at the target price, and the gain is that minus the holdings valued at the current price |
| `Portfolio.MoonshotGain` | main.py:245-246 | holding bitcoin, the gain is positive exactly when the target is above the current price, and zero exactly when they are equal |
| `Portfolio.MoonshotEmpty` | main.py:242-246 | with no purchases the projection is (0, 0) |
| `Portfolio.MoonshotScenario` | main.py:240-246 | 1 BTC, current price 90000, target 150000: value 150000, gain 60000 |
| `Dialog.IsUserAllowed` | main.py:49-50 | the access guard: a user is served exactly when the id equals the configured owner id |
| `Dialog.MatchesLabel` | main.py:265-286 | a menu button's `^label$` filter matches the label itself, and the label followed by one final newline (Python's `$`) |
| `Dialog.IsCommand` | main.py:267-277 | `filters.COMMAND`: the message opens with `/` and a command character; flow steps take only non-command text |
| `Dialog.Bot.constructor` | main.py:20-36 | a started bot serves the given owner, with the rows already stored in the database as its ledger, no stored amount and an idle conversation |
| `Dialog.Bot.AddPurchaseStart` | main.py:80-87 | a non-owner is denied and the state stays; the owner is asked for the amount and the flow enters Amount |
| `Dialog.Bot.AddPurchaseAmount` | main.py:90-103 | a non-owner changes nothing; unparsable text repeats the step and keeps the amount; a number is stored as the amount and the flow moves to Price |
| `Dialog.Bot.AddPurchasePrice` | main.py:106-134 | a non-owner changes nothing; unparsable text repeats the step and writes nothing; a number appends exactly the row (amount, price, amount × price, now) and ends the flow |
| `Dialog.Bot.MoonshotStart` | main.py:225-232 | a non-owner is denied and the state stays; the owner is asked for a target price and the flow enters MoonshotPrice |
| `Dialog.Bot.MoonshotTarget` | main.py:234-257 | a non-owner changes nothing; unparsable text repeats the step; a number reports the moonshot projection of the ledger and ends the flow |
| `Dialog.Bot.ShowProgress` | main.py:137-154 | a non-owner is denied; the owner gets the progress snapshot of the whole ledger at the current price; nothing is modified |
| `Dialog.Bot.ShowHistory` | main.py:196-222 | a non-owner is denied; "no records" exactly when the ledger is empty, otherwise all rows, most recent first, as a permutation of the ledger; nothing is modified |
| `Dialog.Bot.Step` | main.py:264-286 | routing of one message: a non-owner changes nothing and is denied exactly on the four menu buttons, other text being ignored; idle menu buttons start a flow or report (the history listing being all rows, most recent first, or "no records" exactly when empty); inside a flow non-command text goes to the step's handler and commands are ignored; the ledger changes only by the one row of a completed purchase |
| `Dialog.AmountRetryScenario` | main.py:96-103 | "abc" then "0.01" as the amount: the first is refused and the flow stays at Amount, the second is stored and the price is asked for |

## Left out

- Telegram transport is not modelled: message delivery, reply keyboards, `main_menu` and the `/start` greeting (main.py:53-77). `Step` ignores `/start`. For a non-owner, main.py answers `/start` with the denial (main.py:67-71), while the model replies `Ignored`.
- Text formatting and rounding of the reports (main.py:124-129, 157-164, 211-220, 248-252) are not modelled. Replies carry the full-precision values, and a history entry is its row.
- SQLite is modelled only as the `ledger` sequence. The autoincrement `id` column is left out because no query reads it. A storage failure is not modelled.
- The CoinGecko request (main.py:42-46) is not modelled; the price is a parameter. Its failures are not modelled either. In `progress` a failure is uncaught. In `moonshot_price` (main.py:240-257) a reply that is not JSON raises a `ValueError`, which is caught and answered like an invalid number, keeping the state. A missing key or a network error is uncaught there too.
- The matplotlib chart (main.py:174-193) is not modelled; only its two segment values are.
- Floating point is not modelled. Amounts, prices and all arithmetic are exact `real`s. `float()` is the abstract `parse`, so infinities, NaN and rounding are outside the model.
- Dialog.Bot.Step: it keeps one conversation state for both flows. In the library, the add-purchase button pressed while the moonshot flow waits for a target would start the purchase flow and leave the moonshot one pending. `Step` sends that text to the moonshot step instead, which refuses it as a number. Any other overlap of the two `ConversationHandler`s is left out too.
- Dialog.Bot.Step: `filters.COMMAND` is approximated as "starts with `/` followed by a letter, digit or underscore".
- Dialog.Bot.AddPurchasePrice: the `KeyError` for a missing `user_data["amount"]` (main.py:114) is not modelled. The handler runs only in the Price state, and `Valid()` keeps an amount stored there, so the error cannot arise.
- Ties in `ORDER BY date DESC` are left to SQLite. `ShowHistory` promises only the order and a permutation, which hold for any tie order.
