# Personal finance tracker — a Dafny model of its rules

The tracker keeps income and expense records in one local table, shows the
net balance, total income and total expenses, lets the user search the list,
and collects new or edited records through a small form. This project models
the logic behind that: the table and the queries of its data access object,
the view model's derived state and actions, and the entry form's keystroke
guard, validation and save action.

Files, one module each:

- `wrappers.dfy` — `Option`, used for SQL `NULL` and Kotlin's nullable values.
- `text.dfy` — Kotlin's `Char.isWhitespace`, `isBlank`, `trim` and
  `contains(…, ignoreCase = true)`, with their meaning proved.
- `transaction.dfy` — the `Transaction` record, with its declared defaults.
- `transaction_dao.dfy` — the table as a class (`TransactionTable`) whose
  methods insert, update, delete and delete all, and the five reading queries
  as functions of its rows.
- `finance_view_model.dfy` — the view model as a class holding the five
  snapshots; the search filter and the `?: 0.0` mapping as functions.
- `add_transaction_dialog.dfy` — the form as a class (`EntryForm`) whose
  methods are the field handlers and the save button; the amount pattern,
  amount reading and validity rules as functions.
- `main_finance_screen.dfy` — how a saved form reaches the view model: a new
  record when adding, a `copy` of the selected record when editing.

Amounts are whole cents (`int`): the form admits at most two decimals, so a
typed amount is exact in cents. Dates are epoch milliseconds; the clock is a
parameter (`now`). The repository forwards every call unchanged to the data
access object, so the view model holds the table itself. Each reactive query
is modelled by its current answer: a collector is a method that stores the
snapshot it is handed, and `Collect` delivers all four from the table. The
validity rules (`IsTitleValid`, `IsAmountValid`, `IsValid`) are predicates
used by `Save` and `SaveEnabled`, each with its meaning stated in its contract.

## Model

| member | source | states |
|---|---|---|
| `Entity.DefaultsOfTransaction` | app/src/main/java/com/example/personalfinancetracker/data/entity/Transaction.kt:13-23 | a record built from its required fields has the unassigned id 0, is an expense and has an empty note |
| `Dao.AllTransactions` | app/src/main/java/com/example/personalfinancetracker/data/dao/TransactionDao.kt:20-21 | the full listing holds exactly the rows of the table, each as often as the table does, with dates never increasing |
| `Dao.InsertByDate` | app/src/main/java/com/example/personalfinancetracker/data/dao/TransactionDao.kt:20-21 | placing one record into a listing gives that listing's rows plus the record, each as often as before |
| `Dao.InsertByDateKeepsOrder` | app/src/main/java/com/example/personalfinancetracker/data/dao/TransactionDao.kt:20-21 | placing a record into a listing whose dates never increase keeps the dates never increasing |
| `Dao.InCategory` | app/src/main/java/com/example/personalfinancetracker/data/dao/TransactionDao.kt:61 | the `WHERE category = c` selection keeps exactly the rows whose category equals `c`, with their multiplicity |
| `Dao.TransactionsByCategory` | app/src/main/java/com/example/personalfinancetracker/data/dao/TransactionDao.kt:61-62 | the category listing holds exactly the rows whose category equals the argument (case-sensitive), newest first |
| `Dao.OfKind` | app/src/main/java/com/example/personalfinancetracker/data/dao/TransactionDao.kt:49-56 | a row is in the `WHERE isExpense = k` selection exactly when the table holds it and it is of that kind; the selection is never longer than the table |
| `Dao.OfKindMultiplicity` | app/src/main/java/com/example/personalfinancetracker/data/dao/TransactionDao.kt:49-56 | the selection holds each row of the wanted kind as often as the table does, and no row of the other kind |
| `Dao.SumOrNull` | app/src/main/java/com/example/personalfinancetracker/data/dao/TransactionDao.kt:49-56 | SQL `SUM` over the selected rows is NULL exactly when no row is selected |
| `Dao.TotalBalance` | app/src/main/java/com/example/personalfinancetracker/data/dao/TransactionDao.kt:36-44 | the signed sum is NULL exactly when the table is empty |
| `Dao.TotalIncome` | app/src/main/java/com/example/personalfinancetracker/data/dao/TransactionDao.kt:49-50 | the income sum is NULL exactly when no row is income |
| `Dao.TotalExpenses` | app/src/main/java/com/example/personalfinancetracker/data/dao/TransactionDao.kt:55-56 | the expense sum is NULL exactly when no row is an expense |
| `Dao.SignedSumSplits` | app/src/main/java/com/example/personalfinancetracker/data/dao/TransactionDao.kt:36-56 | the sum of the signed terms is the income amounts' sum minus the expense amounts' sum |
| `Dao.BalanceIsIncomeMinusExpenses` | app/src/main/java/com/example/personalfinancetracker/data/dao/TransactionDao.kt:26-56 | with NULL read as 0, balance = income − expenses, for every table |
| `Dao.InsertMovesBalance` | app/src/main/java/com/example/personalfinancetracker/data/dao/TransactionDao.kt:36-44 | adding a row moves the balance by exactly that row's signed amount (and makes it non-NULL) |
| `Dao.InsertMovesIncome` | app/src/main/java/com/example/personalfinancetracker/data/dao/TransactionDao.kt:49-50 | appending an income row moves the income by exactly its amount (and makes it non-NULL); appending an expense row leaves it as it was |
| `Dao.InsertMovesExpenses` | app/src/main/java/com/example/personalfinancetracker/data/dao/TransactionDao.kt:55-56 | appending an expense row moves the expenses by exactly its amount (and makes them non-NULL); appending an income row leaves them as they were |
| `Dao.ReplaceById` | app/src/main/java/com/example/personalfinancetracker/data/dao/TransactionDao.kt:74-75 | update overwrites every field of the rows whose id matches and nothing else; with no such row the table is unchanged |
| `Dao.RemoveById` | app/src/main/java/com/example/personalfinancetracker/data/dao/TransactionDao.kt:80-81 | delete removes exactly the rows with that id, keeps every other row as often as before; with no such row the table is unchanged |
| `Dao.RemoveKeepsIdsUnique` | app/src/main/java/com/example/personalfinancetracker/data/dao/TransactionDao.kt:80-81 | deleting keeps the primary key unique |
| `Dao.TransactionTable.constructor` | app/src/main/java/com/example/personalfinancetracker/data/entity/Transaction.kt:14-15 | a new table is empty and will hand out ids from 1 |
| `Dao.TransactionTable.InsertTransaction` | app/src/main/java/com/example/personalfinancetracker/data/dao/TransactionDao.kt:68-69 | inserting a record with id 0 appends exactly one row, that record under a fresh id no live row has; other rows stay; ids stay unique |
| `Dao.TransactionTable.UpdateTransaction` | app/src/main/java/com/example/personalfinancetracker/data/dao/TransactionDao.kt:74-75 | the new rows are `ReplaceById` of the old ones; ids stay unique |
| `Dao.TransactionTable.DeleteTransaction` | app/src/main/java/com/example/personalfinancetracker/data/dao/TransactionDao.kt:80-81 | the new rows are `RemoveById` of the old ones by the record's id; ids stay unique |
| `Dao.TransactionTable.DeleteAllTransactions` | app/src/main/java/com/example/personalfinancetracker/data/dao/TransactionDao.kt:86-87 | the table is empty, the listing is empty and all three aggregates are NULL; the id counter is kept |
| `Text.Trim` | app/src/main/java/com/example/personalfinancetracker/ui/components/AddTransactionDialog.kt:262-266 | `trim()` gives a text no longer than the original that neither starts nor ends with whitespace |
| `Text.TrimIsMiddleSlice` | app/src/main/java/com/example/personalfinancetracker/ui/components/AddTransactionDialog.kt:262-266 | what `trim()` keeps is one contiguous slice of the text with only whitespace before and after it |
| `Text.TrimIdempotent` | app/src/main/java/com/example/personalfinancetracker/ui/components/AddTransactionDialog.kt:262-266 | trimming a trimmed text changes nothing |
| `Text.IsWhitespace` | app/src/main/java/com/example/personalfinancetracker/ui/components/AddTransactionDialog.kt:43 | Kotlin's `isWhitespace` on the JVM: a character is whitespace exactly when Java's `Character.isWhitespace` or `Character.isSpaceChar` holds for it |
| `Text.IsBlank` | app/src/main/java/com/example/personalfinancetracker/ui/components/AddTransactionDialog.kt:43 | a text is blank exactly when trimming leaves nothing |
| `Text.ContainsIgnoringCase` | app/src/main/java/com/example/personalfinancetracker/viewmodel/FinanceViewModel.kt:51-53 | `contains(q, ignoreCase = true)` holds exactly when `q` occurs at some offset of the text, letter case aside |
| `FinanceViewModel.SubsequenceIsNoLonger` | app/src/main/java/com/example/personalfinancetracker/viewmodel/FinanceViewModel.kt:50-54 | an order-preserving subsequence is never longer than its source |
| `FinanceViewModel.MatchingTransactions` | app/src/main/java/com/example/personalfinancetracker/viewmodel/FinanceViewModel.kt:50-54 | `filter` keeps, in order, every transaction whose title, category or note contains the query, as often as the list holds it, and no other |
| `FinanceViewModel.FilterTransactions` | app/src/main/java/com/example/personalfinancetracker/viewmodel/FinanceViewModel.kt:46-55 | a blank query gives the list unchanged; otherwise the result is sound and complete for "query in title, category or note, ignoring case", keeping every such transaction as often as the list holds it, and an order-preserving subsequence no longer than the list |
| `FinanceViewModel.MatchesQuery` | app/src/main/java/com/example/personalfinancetracker/viewmodel/FinanceViewModel.kt:50-54 | the filter lambda holds exactly when the query occurs, ignoring case, in the title, the category or the note |
| `FinanceViewModel.ViewModel.FilteredTransactions` | app/src/main/java/com/example/personalfinancetracker/viewmodel/FinanceViewModel.kt:45-60 | the filtered list is the whole list for a blank query; otherwise it keeps, in order, each transaction mentioning the query as often as the list holds it, and no other |
| `FinanceViewModel.OrZero` | app/src/main/java/com/example/personalfinancetracker/viewmodel/FinanceViewModel.kt:73-91 | a NULL aggregate is shown as 0, any other value unchanged |
| `FinanceViewModel.NewTransaction` | app/src/main/java/com/example/personalfinancetracker/viewmodel/FinanceViewModel.kt:106-113 | `addTransaction`'s record carries the given title, amount, category, type and note, `now` as its date and the unassigned id 0 |
| `FinanceViewModel.ViewModel.constructor` | app/src/main/java/com/example/personalfinancetracker/viewmodel/FinanceViewModel.kt:23-27 | the initial state is an empty list, zero aggregates, an empty query and an empty filtered list |
| `FinanceViewModel.ViewModel.OnTransactions` | app/src/main/java/com/example/personalfinancetracker/viewmodel/FinanceViewModel.kt:66-70 | the list collector stores the emitted list and touches nothing else |
| `FinanceViewModel.ViewModel.OnTotalBalance` | app/src/main/java/com/example/personalfinancetracker/viewmodel/FinanceViewModel.kt:73-77 | the balance collector stores the emitted value, NULL as 0 |
| `FinanceViewModel.ViewModel.OnTotalIncome` | app/src/main/java/com/example/personalfinancetracker/viewmodel/FinanceViewModel.kt:80-84 | the income collector stores the emitted value, NULL as 0 |
| `FinanceViewModel.ViewModel.OnTotalExpenses` | app/src/main/java/com/example/personalfinancetracker/viewmodel/FinanceViewModel.kt:87-91 | the expense collector stores the emitted value, NULL as 0 |
| `FinanceViewModel.ViewModel.Collect` | app/src/main/java/com/example/personalfinancetracker/viewmodel/FinanceViewModel.kt:64-92 | after the collectors deliver, every snapshot is the table's answer and the balance shown is income shown minus expenses shown |
| `FinanceViewModel.ViewModel.AddTransaction` | app/src/main/java/com/example/personalfinancetracker/viewmodel/FinanceViewModel.kt:99-115 | the table gains exactly the built record, under a fresh id |
| `FinanceViewModel.ViewModel.UpdateTransaction` | app/src/main/java/com/example/personalfinancetracker/viewmodel/FinanceViewModel.kt:120-122 | the update is forwarded to the table unchanged |
| `FinanceViewModel.ViewModel.DeleteTransaction` | app/src/main/java/com/example/personalfinancetracker/viewmodel/FinanceViewModel.kt:127-129 | the delete is forwarded to the table unchanged |
| `FinanceViewModel.ViewModel.DeleteAllTransactions` | app/src/main/java/com/example/personalfinancetracker/viewmodel/FinanceViewModel.kt:148-150 | the table is emptied |
| `FinanceViewModel.ViewModel.UpdateSearchQuery` | app/src/main/java/com/example/personalfinancetracker/viewmodel/FinanceViewModel.kt:134-136 | the query becomes exactly `q`, no other field changes, and the filtered list follows it |
| `FinanceViewModel.ViewModel.ClearSearch` | app/src/main/java/com/example/personalfinancetracker/viewmodel/FinanceViewModel.kt:141-143 | the query becomes empty and the filtered list equals the full list |
| `AddTransactionDialog.AmountScanMatchesPattern` | app/src/main/java/com/example/personalfinancetracker/ui/components/AddTransactionDialog.kt:107 | the one-pass scan accepts exactly the texts matching `^\d*\.?\d{0,2}$` |
| `AddTransactionDialog.AcceptAmountEdit` | app/src/main/java/com/example/personalfinancetracker/ui/components/AddTransactionDialog.kt:106-110 | a proposed amount text is taken when it matches the pattern (the empty text does) and refused otherwise, keeping the old text |
| `AddTransactionDialog.ParseAmount` | app/src/main/java/com/example/personalfinancetracker/ui/components/AddTransactionDialog.kt:44-46 | a text is read only when the one-pass scan accepts it, and then as a non-negative number of cents |
| `AddTransactionDialog.ParseAmountDomain` | app/src/main/java/com/example/personalfinancetracker/ui/components/AddTransactionDialog.kt:44-46 | only texts matching the pattern are read, and a pattern text is read exactly when it holds a digit ("" and "." are not) |
| `AddTransactionDialog.IsTitleValid` | app/src/main/java/com/example/personalfinancetracker/ui/components/AddTransactionDialog.kt:43 | the title is valid exactly when it keeps some character once trimmed |
| `AddTransactionDialog.AmountReadIffNonZeroDigit` | app/src/main/java/com/example/personalfinancetracker/ui/components/AddTransactionDialog.kt:44-46 | a text is non-blank and reads as an amount above 0 exactly when it matches the pattern and one of its digits is not zero |
| `AddTransactionDialog.IsAmountValid` | app/src/main/java/com/example/personalfinancetracker/ui/components/AddTransactionDialog.kt:44-46 | the amount is valid exactly when it matches the pattern and one of its digits is not zero: "0", "00.00" and "." are refused, "0.01" is taken |
| `AddTransactionDialog.IsValid` | app/src/main/java/com/example/personalfinancetracker/ui/components/AddTransactionDialog.kt:47 | the form is valid exactly when the trimmed title is not empty and the amount matches the pattern with a digit other than zero |
| `AddTransactionDialog.ParseAmountOfSplit` | app/src/main/java/com/example/personalfinancetracker/ui/components/AddTransactionDialog.kt:44-46 | for every split of a pattern text with a digit: with no point the text is all digits and reads as that number times 100 ("123" is 12300); with a point it reads as the digits before it times 100 plus the cents after it, with no digits before the point counting as 0 (".5" is 50) |
| `AddTransactionDialog.ParsePointedAmount` | app/src/main/java/com/example/personalfinancetracker/ui/components/AddTransactionDialog.kt:44-46 | "whole.fraction" matches the pattern and reads as the whole part times 100 plus the fraction's cents |
| `AddTransactionDialog.DecimalText` | app/src/main/java/com/example/personalfinancetracker/ui/components/AddTransactionDialog.kt:36 | the plain decimal text of an amount matches the pattern and reads back as the same amount |
| `AddTransactionDialog.EntryForm.Open` | app/src/main/java/com/example/personalfinancetracker/ui/components/AddTransactionDialog.kt:35-40 | the form starts on the edited record's fields, or on "", "", "Food", expense, "" when adding; the menu is closed |
| `AddTransactionDialog.EntryForm.OnTitleChange` | app/src/main/java/com/example/personalfinancetracker/ui/components/AddTransactionDialog.kt:89 | the title takes the typed text |
| `AddTransactionDialog.EntryForm.OnAmountChange` | app/src/main/java/com/example/personalfinancetracker/ui/components/AddTransactionDialog.kt:106-110 | the amount follows `AcceptAmountEdit`, so a text of the pattern stays one |
| `AddTransactionDialog.EntryForm.OnCategoryMenuExpandedChange` | app/src/main/java/com/example/personalfinancetracker/ui/components/AddTransactionDialog.kt:128 | the menu opens or closes as asked |
| `AddTransactionDialog.EntryForm.DismissCategoryMenu` | app/src/main/java/com/example/personalfinancetracker/ui/components/AddTransactionDialog.kt:149 | dismissing closes the menu |
| `AddTransactionDialog.EntryForm.SelectCategory` | app/src/main/java/com/example/personalfinancetracker/ui/components/AddTransactionDialog.kt:166-169 | choosing an item sets the category to one of the nine names and closes the menu |
| `AddTransactionDialog.EntryForm.SelectIncome` | app/src/main/java/com/example/personalfinancetracker/ui/components/AddTransactionDialog.kt:192 | the income chip makes the record money in |
| `AddTransactionDialog.EntryForm.SelectExpense` | app/src/main/java/com/example/personalfinancetracker/ui/components/AddTransactionDialog.kt:218 | the expense chip makes the record money out |
| `AddTransactionDialog.EntryForm.OnNoteChange` | app/src/main/java/com/example/personalfinancetracker/ui/components/AddTransactionDialog.kt:246 | the note takes the typed text |
| `AddTransactionDialog.EntryForm.SaveEnabled` | app/src/main/java/com/example/personalfinancetracker/ui/components/AddTransactionDialog.kt:270 | the save button is enabled exactly when the trimmed title is not empty and the amount matches the pattern with a digit other than zero |
| `AddTransactionDialog.EntryForm.Save` | app/src/main/java/com/example/personalfinancetracker/ui/components/AddTransactionDialog.kt:259-270 | save yields arguments exactly when title and amount are valid: trimmed title and note, the amount read, category and type unchanged; the saved title is not blank and the amount is above 0 |
| `MainFinanceScreen.EditedTransaction` | app/src/main/java/com/example/personalfinancetracker/ui/screens/MainFinanceScreen.kt:183-189 | the edited copy takes the five saved fields and keeps id and date |
| `MainFinanceScreen.EditChangesOnlyThatRow` | app/src/main/java/com/example/personalfinancetracker/ui/screens/MainFinanceScreen.kt:181-190 | in a table with unique ids, saving an edit of a row turns that row, and only it, into the edited copy; ids stay unique |
| `MainFinanceScreen.SaveAdded` | app/src/main/java/com/example/personalfinancetracker/ui/screens/MainFinanceScreen.kt:165-168 | the add dialog's saved fields reach the table as one new record |
| `MainFinanceScreen.SaveEdited` | app/src/main/java/com/example/personalfinancetracker/ui/screens/MainFinanceScreen.kt:181-190 | the edit dialog's saved fields reach the table as an update of the edited copy |

## Left out

- Floating point: amounts are whole cents, so `Double` rounding in the SQL sums and in `toDouble` is not modelled.
- Flows, coroutines, `viewModelScope.launch`, `combine`/`stateIn` and `SharingStarted.WhileSubscribed(5000)`: delivery is modelled as the synchronous `Collect`; the view model's writes finish before it returns; timing and the 5-second grace period are not modelled.
- Storage faults and the database singleton, its locking and destructive migration: there is no I/O in the model.
- `Dao.TransactionTable.InsertTransaction`: only records with the unassigned id 0 are inserted, which is all the app does; Room's conflict handling for an explicit, already used id is not modelled.
- `Dao.AllTransactions`: SQL leaves the order of rows with equal dates open; the model fixes one (table order), and its contract promises only what SQL does.
- `Text.ContainsIgnoringCase`: case folding covers the ASCII letters only; Unicode case pairs outside ASCII (for instance the Kelvin sign and `k`) are not matched.
- `Text.IsWhitespace` lists today's Unicode space, line and paragraph separators; older Unicode tables differ slightly.
- `AddTransactionDialog.AcceptAmountEdit`: `\d` in the amount pattern is read as an ASCII digit, its meaning in Java SE. On Android the pattern engine is ICU, whose `\d` also matches other Unicode decimal digits (for example Arabic-Indic or Devanagari digits), so the device also accepts such keystrokes; the model refuses them.
- `AddTransactionDialog.ParseAmount`: texts outside the keystroke pattern read as unparseable. Such texts reach the amount field only through the edit prefill (for example `Double.toString`'s exponent form "1.0E7" for ten million and more), which `toDoubleOrNull` would read.
- `AddTransactionDialog.EntryForm.Open`: the edit prefill of the amount comes from `Double.toString`, which is library code; it is a parameter. `DecimalText` models its plain form, for amounts below ten million.
- Layout, icons, colours, themes, number and date formatting (`TransactionItem.kt`, `BalanceCard.kt`, `Theme.kt`, `Color.kt`), `MainActivity.kt`, the view-model factory and the build script are presentation or wiring, not logic.
- The repository is a pass-through and is folded into the table.
