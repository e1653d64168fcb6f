# Expense tracker ledger — a Dafny model

This project models the ledger engine inside the `ExpenseTracker` React component of the
expense tracker front end (`frontend/src/App.js`). It covers:

- the component state that the engine updates: the newest-first list of transactions,
  the cached balance, and the amount, description and category inputs;
- `addTransaction` and the three button handlers that call it;
- the two 30-day chart series, daily spending and balance over time;
- the derived values shown on the dashboard: the five most recent transactions, total
  income and total expenses.

Modules, one per part of the engine:

- `Ledger` (`ledger.dfy`) holds the entities (`Transaction`, `Kind`, `Category`) and the folds
  every other part is specified against: `SignedSum` (the balance folded from scratch),
  `TotalIncome`, `TotalExpenses`, `ExpensesOn(day)`, `ExpensesIn(lo, hi)`, `SignedOn(day)` and
  `BalanceUpTo(day)`. It also holds `Recent` and the lemmas about these folds.
- `TimeSort` (`timesort.dfy`) models the chronological copy that the balance chart sorts. The
  built-in stable array sort with a timestamp comparator becomes a stable insertion sort on
  sequences. It is proved a chronological permutation that keeps every running balance.
- `Charts` (`charts.dfy`) holds the two aggregations as methods with the source's
  `for (i = 29; i >= 0; i--)` loops. Each pushes one point per day and is proved against the
  folds. Lemmas relate the two series to window totals, day-to-day steps and the final balance.
- `Tracker` (`tracker.dfy`) holds the class `ExpenseTracker`: the component state as fields,
  `AddTransaction`, and the three handlers. Its invariant `Valid()` says the cached balance
  equals the balance folded from scratch. The method `PaycheckThenCoffee` is a client that
  checks a two-transaction session against these contracts.

Representation choices:

- Amounts are integers in the source's own numeric unit. The amount input is the result of
  parsing it: `None` when the field is empty or not a number.
- A transaction's `date` is a timestamp `at` in milliseconds since the epoch. Its calendar day
  is `DayOf(at)`, the floor of `at / 86400000`: one fixed reference frame.
- The current date and the clock reading are parameters (`today` as a day number, `now` as
  milliseconds).
- Chart points keep the day number in place of the `yyyy-MM-dd` key. The `'MMM dd'` display
  label is dropped.

## Model

| member | source | states |
|---|---|---|
| `Ledger.DayOf` | frontend/src/App.js:109 | the day of a timestamp is the unique day whose 24-hour span contains it |
| `Ledger.Recent` | frontend/src/App.js:156 | the recent list has min(5, ledger length) entries and they are the ledger's first entries in order |
| `Ledger.RecentAfterPrepend` | frontend/src/App.js:71 | after a prepend the new transaction is the first recent one and the others are the previous recent ones shifted down, the oldest dropped |
| `Ledger.SignedSumIsIncomeMinusExpenses` | frontend/src/App.js:157-158 | the balance folded from scratch equals total income minus total expenses |
| `Ledger.ExpensesOnNone` | frontend/src/App.js:108-110 | a day on which no expense is dated has a zero spending bucket, whatever income it has |
| `Ledger.ExpensesOnOnlyExpenses` | frontend/src/App.js:109 | an income transaction at any position of the ledger never changes a daily spending bucket |
| `Ledger.ExpensesInExtend` | frontend/src/App.js:104-110 | extending a day range by one day adds exactly that day's spending bucket |
| `Ledger.ExpensesInCoversAll` | frontend/src/App.js:108-110 | when every transaction lies in a day range, the range's expense total is the total of all expenses |
| `Ledger.BalanceStep` | frontend/src/App.js:135-141 | the running balance of a day is that of the day before plus the signed sum dated on the day |
| `Ledger.BalanceUpToAll` | frontend/src/App.js:135-141 | when no transaction is dated after a day, its running balance is the full balance folded over the ledger |
| `Ledger.BalanceUpToNone` | frontend/src/App.js:135-141 | before the first dated transaction the running balance is zero |
| `TimeSort.InsertByTime` | frontend/src/App.js:127 | inserting keeps a chronological sequence chronological and adds exactly the inserted transaction to its multiset |
| `TimeSort.SortByTime` | frontend/src/App.js:127 | the sorted copy is a permutation of the ledger, oldest first |
| `TimeSort.SortKeepsBalance` | frontend/src/App.js:127-141 | sorting the copy changes no running balance, so sorting before filtering gives the same totals |
| `Charts.DailySpendingData` | frontend/src/App.js:102-119 | exactly 30 points on the consecutive days today-29 .. today, oldest first; each point is the expense total dated on its day |
| `Charts.BalanceOverTimeData` | frontend/src/App.js:122-151 | exactly 30 points on the same days; each is the signed sum of the whole history dated on or before its day |
| `Charts.SpendingSeriesTotal` | frontend/src/App.js:104-110 | the points of a spending series over consecutive days add up to the expenses dated in that range |
| `Charts.DailySpendingTotal` | frontend/src/App.js:102-118 | the 30 daily spending points add up to the expenses dated inside the window |
| `Charts.BalanceSeriesStep` | frontend/src/App.js:130-147 | consecutive balance points differ by exactly the signed sum dated on the later day |
| `Charts.BalanceSeriesEndsAtBalance` | frontend/src/App.js:130-150 | the last balance point is the full balance when no transaction is dated after today |
| `Tracker.DescriptionOr` | frontend/src/App.js:83 | an empty description is replaced by the default and a non-empty one is kept |
| `Tracker.Decimal` | frontend/src/App.js:98 | the amount's text in a quick-expense description is a digit string without leading zero that denotes the amount |
| `Tracker.ExpenseTracker.constructor` | frontend/src/App.js:7-11 | the tracker starts with zero balance, an empty ledger, empty inputs and category Food |
| `Tracker.ExpenseTracker.AddTransaction` | frontend/src/App.js:61-79 | the new transaction is prepended, the old ledger is the unchanged tail, the balance moves by +amount for income and -amount otherwise, and the cached balance stays equal to the folded balance and to income minus expenses |
| `Tracker.ExpenseTracker.HandleAddMoney` | frontend/src/App.js:81-87 | an absent or non-positive amount changes nothing; otherwise one income is recorded with description defaulting to 'Money added' and category 'Other', and the amount and description inputs are cleared |
| `Tracker.ExpenseTracker.HandleAddExpense` | frontend/src/App.js:89-95 | an absent or non-positive amount changes nothing; otherwise one expense is recorded with description defaulting to 'Expense' in the selected category, and the amount and description inputs are cleared |
| `Tracker.ExpenseTracker.HandleQuickExpense` | frontend/src/App.js:97-99 | one expense of the button's amount, described 'Quick expense $' followed by the amount, is recorded in the selected category; the inputs are untouched |

## Left out

- Loading from and saving to `localStorage` (frontend/src/App.js:21-59) are browser I/O and
  JSON parsing. So are their quirks: the balance is stored apart from the ledger, the balance
  save is conditional, and an empty ledger is never saved.
- Rendering, tab switching, the input `onChange` handlers, the charts and styling
  (frontend/src/App.js:160-418) are UI with no logic to state. Because of this, the category and
  the inputs are set directly on the object.
- `parseFloat`, fractional amounts and `toFixed`: amounts are integers. The parsed input is
  `Option<int>`, so a non-numeric string and an empty one are both `None`.
- `date-fns` and the browser's local time zone: the source buckets by local calendar date. The
  model uses one fixed frame (days since the epoch), so day boundaries may differ from a given
  browser's.
- `Tracker.ExpenseTracker.AddTransaction`: the source reads the clock twice, once for `id`
  (`Date.now()`) and once for `date`. The model uses one reading `now` for both. No uniqueness
  of `id` is claimed, since two adds in the same millisecond share it.
- `Charts.DailySpendingData`, `Charts.BalanceOverTimeData`: the source reads `new Date()` once
  per bucket. The model reads `today` once, so a run that crosses midnight is not modelled.
- `Tracker.ExpenseTracker.HandleQuickExpense`: requires the amount to be one of the five button
  amounts, the only values its caller passes (frontend/src/App.js:271-274).
- `TimeSort.SortByTime`: stability (ties keep ledger order) is not stated. It does not affect any
  sum.
- `console.log` and `console.error` calls.
- Where the code is looser than a strict ledger would be, the model follows the code:
  - `addTransaction` does not reject non-positive amounts. Only the two form handlers do, and
    they silently ignore bad input rather than report an error. The handlers preserve "all
    amounts positive"; `AddTransaction` does not require it.
  - The balance series recomputes every bucket over the whole sorted history (quadratic). It
    is not a single forward accumulation; `Charts.BalanceSeriesStep` shows the two agree.
  - The recent list is always the first five entries; there is no count parameter.
  - The category of an expense is whatever the selector holds; there is no fallback validation.
