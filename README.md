# Personal expense tracker: the data-shaping core

The tracker is a desktop application that records income and expense
transactions, stores them (in MySQL for the window in `gui.py`, in a CSV file
for the stand-alone window in `main.py`), shows balances, and draws category
charts and an expense forecast. This project models the parts that decide
which rows are written and what is computed from the stored rows:

- `Analysis` (analysis.py, `fetch_data`): one loop over the fetched rows
  that totals income and expense and builds one category map per type.
  Parse failures are skipped and empty categories become "Uncategorized".
  The method `FetchData` keeps the loop and its two maps in place. The fold
  `Aggregate` specifies it, and the lemmas relate it to independent
  reference sums (`SumOfKind`, `CategorySum`).
- `Gui` (gui.py): the amount check `amount.strip().replace('.', '', 1).isdigit()`
  and the row that `add_transaction` hands to `insert_transaction`. The date is
  the selected date, a blank and `HH:MM:SS`. The form is a class whose fields
  are the widget variables. `calculate_balance` is a loop that converts an
  amount only on 'Income' and 'Expense' rows.
- `MainApp` (main.py): the stricter check `amount.strip().isdigit()`, the
  record that `add_transaction` appends to the CSV file, and a
  `calculate_balance` that converts every amount before it tests the type.
- `Forecast` (ml.py, `prepare_data`): the chain of data-frame steps. These
  are the Expense filter, the projection and rename, `to_datetime`,
  `to_numeric(errors="coerce")` and `dropna`, each written as one function over
  a sequence. They are proved equal to a direct reference selection `Survivors`.
- `Text`: the Python string operations the checks call (`strip`,
  `replace(c, '', 1)`, `isdigit`) and two-digit zero padding. `Find`, the
  first occurrence of a character as `str.find` gives it, is not called by
  the checks; it is the reference against which `replace(c, '', 1)` is specified.
- `Transactions`: the row type and the reference sum `SumOfKind`.
  `Wrappers`: `Option` and `Result`.

Rows are `Row(date, kind, amount, description, category)`. Every field is
the stored string, and the category is `Option<string>` (None for NULL).
The number conversions are parameters of type `string -> Option<real>`:
Python's `float()` (None: it raises) and pandas' `to_numeric` (None: NaN).
`pandas.to_datetime` is a parameter `string -> DateParse` (a timestamp, NaT, or
unreadable). Amounts are exact reals, not floats.

Two behaviours of `prepare_data` are worth noting:

- Unlike a bad amount, which only drops its row (ml.py:17-18), an
  unreadable date on an Expense row makes `prepare_data` fail as a whole,
  because ml.py:16 calls `to_datetime` without `errors="coerce"`
  (`Forecast.PrepareDataMeaning`).
- `prepare_data` has no minimum-size check; it returns an empty series as is
  (`Forecast.NoExpensesNoSeries`).

## Model

| member | source | states |
|---|---|---|
| `Text.TrimStartSpec` | gui.py:121 | the leading-whitespace cut keeps a suffix that does not start with whitespace and removes only whitespace |
| `Text.TrimEndSpec` | gui.py:121 | the trailing-whitespace cut keeps a prefix that does not end with whitespace and removes only whitespace |
| `Text.StripSpec` | gui.py:121 | `strip()` returns a contiguous part of the input, bare at both ends, with only whitespace around it |
| `Text.StripPadded` | gui.py:121 | any bare string padded with whitespace on both sides strips back to exactly itself |
| `Text.StripIdempotent` | gui.py:121 | stripping twice is stripping once |
| `Text.FindSpec` | gui.py:121 | the first-occurrence reference used to specify `replace('.', '', 1)`: None iff the character is absent, else the first index holding it |
| `Text.DeleteFirstSpec` | gui.py:121 | `replace('.', '', 1)` deletes the character at the first index `find` reports and leaves a string without it unchanged |
| `Text.Pad2RoundTrip` | gui.py:113 | a two-digit zero-padded field reads back as the number written |
| `Analysis.DefaultCategory` | analysis.py:21 | the key is never empty; it is "Uncategorized" or the stored label; a non-empty label is used verbatim (no trimming or case folding) |
| `Analysis.SumValuesAddTo` | analysis.py:25-28 | `totals[key] += amount` on a defaultdict adds exactly `amount` to the sum of the map's values, whether the key is new or not |
| `Analysis.StepProjection` | analysis.py:18-31 | one iteration adds a row's amount to its type's total and to its category's entry. A bad amount or another type changes neither |
| `Analysis.AggregateTotal` | analysis.py:17-28 | `income` and `expense` are the sums of the convertible amounts of the rows whose type is exactly 'Income', resp. 'Expense' |
| `Analysis.CategoryTotalsSum` | analysis.py:24-28 | the values of `income_totals` sum to `income`, those of `expense_totals` to `expense` |
| `Analysis.CategoryKeys` | analysis.py:23-28 | a category is a key of a type's map iff some row of that type with a convertible amount has that defaulted category |
| `Analysis.CategoryValues` | analysis.py:23-28 | each map entry equals the sum of the amounts of the rows of that type and category |
| `Analysis.RunAppend` | analysis.py:17-31 | running the loop over a concatenation is running it over each part in turn |
| `Analysis.IgnoredRowInvisible` | analysis.py:20-31 | removing a row that fails to convert, or whose type is neither 'Income' nor 'Expense', from any position changes none of the four results |
| `Analysis.FetchData` | analysis.py:10-33 | the loop returns the aggregate; the totals are the per-type sums; each map sums to its total; every key comes from a counted row; empty input gives 0, 0 and two empty maps |
| `Analysis.FetchExample` | analysis.py:13-33 | (Income 1000 Salary), (Expense 200 Food), (Expense 50 "") give 1000, 250, {Salary: 1000}, {Food: 200, Uncategorized: 50} |
| `Analysis.CategoriesNotNormalised` | analysis.py:21-28 | "food", "Food" and " " remain three separate keys |
| `Gui.AmountAccepted` | gui.py:121 | the amount is accepted iff its stripped form is non-empty, not a lone '.', made of digits and at most one '.' |
| `Gui.RejectedExamples` | gui.py:121-123 | "", "-5", "+5" and "1.2.3" are rejected |
| `Gui.AcceptedExamples` | gui.py:121 | "5.", ".5", "12.50" and " 7\t" are accepted |
| `Gui.ClockString` | gui.py:113 | the `%H:%M:%S` string has eight characters with ':' at positions 2 and 5 |
| `Gui.ClockRoundTrip` | gui.py:113 | its three fields are digit pairs that read back as hour, minute and second |
| `Gui.StampedDateParts` | gui.py:112-114 | the stored date is the selected date, one blank, then the clock string |
| `Gui.ExpenseTracker.constructor` | gui.py:52-75 | the form starts with type Expense and empty amount, description and category |
| `Gui.ExpenseTracker.SelectType` | gui.py:53 | the read-only type box only ever holds Income or Expense |
| `Gui.ExpenseTracker.AddTransaction` | gui.py:111-129 | rejected iff the amount check fails. Rejected, or the insert raises: nothing inserted, no field changes. Otherwise one row with the raw amount, then amount, description and category cleared and type kept |
| `Gui.FormRowsAllConverted` | gui.py:53 | on rows written through the form, all typed Income or Expense, calculate_balance succeeds iff every amount converts |
| `Gui.CalculateBalance` | gui.py:147-156 | succeeds iff every 'Income'/'Expense' amount converts (no other amount is converted); income and expense are the per-type sums; balance is their difference; no rows give 0/0/0 |
| `MainApp.StricterThanGui` | main.py:72 | every amount main.py accepts is accepted by gui.py, while "12.5" is accepted only by gui.py |
| `MainApp.ExpenseTracker.constructor` | main.py:34-44 | the form starts with type Expense and empty amount and description |
| `MainApp.ExpenseTracker.SelectType` | main.py:35 | the read-only type box only ever holds Income or Expense |
| `MainApp.ExpenseTracker.AddTransaction` | main.py:66-81 | accepted iff the stripped amount is all digits. Rejected: nothing written. Accepted: one record with the raw amount, then amount and description cleared |
| `MainApp.CalculateBalance` | main.py:92-106 | succeeds iff every amount converts, whatever its type; a header-only file gives 0/0/0; income and expense are the per-type sums; balance is their difference |
| `MainApp.ConversionOrder` | main.py:98-103 | main.py succeeding implies gui.py succeeding on the same rows, and one unknown-type row with a bad amount fails main.py but not gui.py |
| `Forecast.StagesCons` | ml.py:15-16 | projection and `to_datetime` on a frame with a leading Expense row: unreadable date fails, otherwise the row is kept with its timestamp or NaT |
| `Forecast.CoerceCons` | ml.py:17-18 | `to_numeric` and `dropna` keep a leading row iff it has both a timestamp and a number |
| `Forecast.PrepareDataCons` | ml.py:7-20 | how one leading row changes the prepared series: ignored unless Expense; fails the whole call on an unreadable date; else prepended iff it survives |
| `Forecast.PrepareDataMeaning` | ml.py:12-18 | preparation fails iff some Expense row has an unreadable date; otherwise it returns exactly the surviving Expense rows, in input order |
| `Forecast.SurvivorsSelect` | ml.py:12-18 | the series picks rows by strictly increasing indices, each one a surviving row, and every surviving row is picked |
| `Forecast.SurvivorsBound` | ml.py:12-18 | the series is no longer than the number of Expense rows |
| `Forecast.NoExpensesNoSeries` | ml.py:12-20 | an empty or Expense-free table prepares to an empty series without failing |

## Left out

- database.py is not part of this model. The fetched rows are an input. The
  SQL statements (`ORDER BY date DESC`, the undo by id, bulk CSV import with
  its date normalisation and defaults) are the store's semantics.
- utils.py (export dialog and `csv.writer`) is not part of this model.
- The store itself: `Gui.ExpenseTracker.inserted` records the rows given to
  `insert_transaction` and `MainApp.ExpenseTracker.written` the records
  appended to the CSV file. Neither models persistence, reading back, reset
  or undo.
- main.py file handling: creating the file with its header, opening,
  appending and `reset_all` are I/O. `MainApp.CalculateBalance` receives the
  records after the header. Short CSV lines, whose missing fields
  `DictReader` fills with None, are not modelled.
- Tkinter: message boxes, the table refresh (`show_transactions`),
  `DateEntry`, and the `.2f` formatting of the balance message. The
  current time is a parameter: hour, minute and second for gui.py, the
  formatted timestamp for main.py.
- The log line printed for a skipped row (analysis.py:30) and the exception
  messages. A raised exception is modelled as None or `Failure` without its text.
- Chart construction (analysis.py:37-135) and Prophet fitting, prediction and
  plotting (ml.py:23-55): these are third-party libraries and visual formatting.
- Float semantics: amounts are exact reals. `float()`, `to_numeric` and
  `to_datetime` are abstract parameters, so their exact acceptance rules
  (signs, exponents, "inf", "nan") are not modelled. A NaN that `float()`
  accepts cannot be represented.
- Unicode: `isdigit` is modelled for the ASCII digits only and `strip` for
  the ASCII whitespace only (tab to carriage return, 0x1C-0x1F, blank).
  Python also accepts other Unicode digits and whitespace.
- `Gui.CalculateBalance` receives whole rows and reads only their type and
  amount, as in the `(type, amount)` pairs of `fetch_income_expense`.
- `Forecast.PrepareDataMeaning`: `to_datetime` is modelled one value at a
  time, so whether a date is readable never depends on the other rows.
  ml.py:16 converts the whole column at once, and pandas may take one format
  from the first value and then reject a later value in another format. The
  stored dates share one format (gui.py:114), so the abstraction is close.
- `Gui.ExpenseTracker.AddTransaction`: a raising `insert_transaction` is
  modelled as the `StoreFailed` outcome with nothing written. The exception's
  propagation to Tk, and a partial write inside the store, are not modelled.
