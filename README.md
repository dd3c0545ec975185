# Personal finance tracker — a verified Dafny model

This project models the core of a single-file C++ personal finance ledger (`main.cpp`).
The ledger keeps incomes, expenses and per-category budgets in three ordered
vectors. It validates every add, update and delete, and checks spending against
the budgets. It lists the records of a date range. It saves everything as
comma-separated lines and reads those lines back tolerantly.

The model has six modules, one file each:

- `wrappers.dfy` (`Wrappers`): the `Option` type.
- `text.dfy` (`Text`): character-level helpers that stand in for the C library calls:
  - the digits that `%d` and `%0Nd` print;
  - the `%d` conversion of `sscanf`;
  - the white-space test of `isspace`;
  - the comma search of `getline`.
- `temporal.dfy` (`Temporal`): the immutable `Time` and `Date` values.
  - Their clamping constructors. The calendar is flat: February has 28 days and there are no leap years.
  - The comparison operators.
  - The `HH:MM:SS` and `YYYY-MM-DD HH:MM:SS` text forms.
  - The best-effort `sscanf` reading of a stored date.
- `records.dfy` (`Records`): the records and the pure specification of what the tracker computes:
  - totals and the spend in a category;
  - the first-match budget lookup and the budget upsert;
  - the three budget tiers;
  - the inclusive period selection;
  - the field edits of the two update operations.
- `storage.dfy` (`Storage`): the save format and the loader.
  - Amounts are written as text and read back as `stod` reads them.
  - The `INCOME`, `EXPENSE` and `BUDGET` lines.
  - The tolerant line-by-line reading, which keeps a 1-based line number for its warnings.
  - The round trip from a ledger to lines and back.
- `tracker.dfy` (`Tracker`): the `FinanceTracker` class.
  - Its three `seq` fields are updated in place by methods with `modifies this`.
  - The accumulator loops, the search-then-update loop of `setBudget` and the `while` loop of `loadFromFile` are methods with loop invariants.
  - Each method is proved against the specification functions of `Records` and `Storage`.

## Representation

- **Amounts.** Amounts are whole cents (`int`). The large-transaction alert threshold of 10000 is therefore `1000000`.
- **Budget tiers.**
  - The 90% test `spent > limit * 0.9` is written exactly, as `10 * spent > 9 * limit`.
  - `Records.TierByPercentage` proves that for a positive limit this is the same as reading the tier off the percentage.
- **Records.** Incomes and expenses share one `Transaction` datatype. Its `name` is the source of an income or the category of an expense. They live in separate sequences, as in the source.
- **Console output becomes results.** A refused call returns an `Outcome`:
  - `InvalidIndex`, `NegativeAmount` or `EmptyLabel` for a failed check;
  - `Canceled` for an expense the user declines;
  - `Done` for success.
- **Reports.** The large-amount alert and the balance warning are returned as booleans. `checkBudgets` returns a `BudgetReport`. `generateReportForPeriod` returns the records it would list.
- **Confirmation.** The `y`/`n` answer to the balance warning is a `bool` parameter of `AddExpense`.
- **Files.** The save file is a sequence of lines. "No save file" is `None`. `FileText` and `SplitLines` relate the lines to the file's text.

Behaviour of the source worth knowing:

- **The loader does not validate.**
  - It keeps negative amounts (main.cpp:786-808).
  - It keeps a second `BUDGET` line for a category that already has one (main.cpp:767-779).
  - So "at most one budget per category" and "amounts are non-negative" hold only for ledgers built by the validating operations. `Storage.LoadKeepsDuplicateBudgets` and `Storage.LoadKeepsNegativeAmount` show this.
- **Date defaults.** A stored date that cannot be read becomes 2000-01-01 00:00:00, the values the variables hold before `sscanf` (main.cpp:797).
- **Unreadable date fields.** `sscanf` stops at the first field it cannot read (main.cpp:798), so every field after that one keeps its default, even if it is present in the text: "2024-xx-15 10:20:30" is read as 2024-01-01 00:00:00 (`Temporal.ParseDateDropsLaterFields`).
- **Zero percentage.** The percentage is 0 whenever the limit is not positive (main.cpp:629).
- **The round trip is not exact.** The source writes amounts with the stream's default 6-significant-digit formatting. The model writes them exactly; see "Left out".

## Model

| member | source | states |
|---|---|---|
| `Temporal.MakeTime` | main.cpp:57-62 | Each of hour, minute and second is kept exactly when it is in range ([0,23], [0,59], [0,59]) and becomes 0 otherwise; the result is always a valid time |
| `Temporal.MakeDate` | main.cpp:96-104 | Year, month and day are kept exactly when they lie in [1900,9999], [1,12] and [1, days of the month], and become 2000, 1 and 1 otherwise; the time is kept; nothing is rejected and the result is always a valid date |
| `Temporal.MakeDateKeepsValid` | main.cpp:96-104 | Building a date from the components of a valid date gives that date back: clamping leaves in-range input unchanged |
| `Temporal.LessIsLexicographic` | main.cpp:134-142 | `operator<` holds exactly when (year, month, day, hour, minute, second) is lexicographically smaller |
| `Temporal.LessIsStrictTotalOrder` | main.cpp:134-142 | `operator<` is irreflexive, transitive and asymmetric, and orders any two distinct dates |
| `Temporal.DerivedOperators` | main.cpp:144-157 | `>` is `<` flipped, `<=` means "earlier or equal" and `>=` means "later or equal" |
| `Temporal.TimeTextRoundTrip` | main.cpp:79-84 | The `HH:MM:SS` text of a time is scanned back as its hour, minute and second |
| `Temporal.DateTextEndsWithTime` | main.cpp:126-132 | A date's text is `YYYY-MM-DD`, a blank, then the text of its time |
| `Temporal.DatePartsDigits` | main.cpp:129-130 | Each zero-padded component of the text form is a non-empty digit run whose value is that component |
| `Temporal.DateTextChars` | main.cpp:126-132 | A date's text holds only digits, `-`, blanks and `:`, so it never contains a comma or a line break |
| `Temporal.ScanFields` | main.cpp:798 | `sscanf` returns at most one value per conversion of the format |
| `Temporal.ScanJoined` | main.cpp:798 | Digit runs joined by non-digit separators are scanned back as their values, and the scan ends where the text ends |
| `Temporal.DateTextRoundTrip` | main.cpp:796-799 | The text a date is saved as is read back by the loader as exactly that date |
| `Temporal.ParseDatePrefix` | main.cpp:796-799 | A date text cut after its first n components reads back with those components, the defaults 2000-01-01 00:00:00 for the rest, and then the clamping constructors |
| `Temporal.ParseDateStopsAtUnreadableMonth` | main.cpp:796-799 | A valid year followed by "-" and a character that cannot start a number reads as that year, month 1, day 1 and 00:00:00, whatever text follows, because the scan stops at the month |
| `Temporal.ScanStopsAtSecond` | main.cpp:798 | A digit run, "-" and a character that is not white space, a sign or a digit scan as the run's value alone: no later conversion is attempted |
| `Temporal.ScanIntRefuses` | main.cpp:798 | `%d` fails on text that starts with a character that is neither white space, a sign nor a digit |
| `Temporal.ParseDateDropsLaterFields` | main.cpp:796-799 | "2024-xx-15 10:20:30" is read as 2024-01-01 00:00:00: the day and time present in the text are dropped |
| `Temporal.ParseDateUnreadable` | main.cpp:797-799 | A date field that does not start with a number yields 2000-01-01 00:00:00 |
| `Text.Padded` | main.cpp:129-130 | `%0Nd` of a value below 10^N is exactly N digits whose value is that value |
| `Text.NatText` | main.cpp:727 | A non-negative integer is written as at least one digit, and the digits' value is that integer |
| `Text.SkipSpace` | main.cpp:798 | White-space skipping removes exactly the leading white space: what is left is a suffix that does not start with white space |
| `Text.ScanIntOfDigits` | main.cpp:798 | `%d` reads a digit run followed by a non-digit as the run's value and leaves exactly the rest of the text |
| `Text.Find` | main.cpp:760-762 | The position of the first delimiter, or the length of the text when there is none |
| `Records.TotalConcat` | main.cpp:291-303 | The total of two sequences one after the other is the sum of their totals |
| `Records.TotalAfterDelete` | main.cpp:439-448 | Deleting the record at i lowers the total by exactly that record's amount |
| `Records.TotalAfterReplace` | main.cpp:367-388 | Replacing the record at i changes the total by the new amount minus the old one |
| `Records.SpentInBounded` | main.cpp:305-313 | With non-negative amounts, the spend in any one category is between 0 and the total of the expenses |
| `Records.SpentInOtherCategories` | main.cpp:305-313 | Expenses of other categories, under exact case-sensitive matching, add nothing to a category's spend |
| `Records.FindCategory` | main.cpp:315-322 | The index of the first budget with the category, or the number of budgets when there is none |
| `Records.FindCategoryIs` | main.cpp:317-320 | The first-match properties determine the index of the budget found |
| `Records.UpsertSpec` | main.cpp:603-612 | After the upsert, the category's limit is the new one and every other category's limit is unchanged; the count stays the same exactly when the category was present and grows by one otherwise; distinct categories stay distinct |
| `Records.UpsertTwice` | main.cpp:591-614 | Setting a category's limit twice is the same as setting it once to the second limit |
| `Records.UpsertLeavesOneBudget` | main.cpp:603-612 | After an upsert into budgets with distinct categories, exactly one budget has the category, and it has the new limit |
| `Records.TierByPercentage` | main.cpp:629-642 | For a positive limit: exceeded exactly when the percentage is over 100, warning exactly when it is over 90 and at most 100, normal exactly when it is at most 90 |
| `Records.PercentageAbove` | main.cpp:629 | The percentage is over k exactly when 100 times the spend is over k times the limit |
| `Records.TierMonotone` | main.cpp:631-642 | Spending more never moves a budget to a lower tier |
| `Records.PeriodBoundsSymmetric` | main.cpp:684-690 | The bounds after the swap do not depend on the order the two dates were given in, and the lower one comes first |
| `Records.InPeriodBetween` | main.cpp:696 | A date is in the period exactly when it is at or after the lower bound and at or before the upper bound |
| `Records.WithinMembers` | main.cpp:694-713 | The selection holds exactly the records dated inside the period |
| `Records.WithinConcat` | main.cpp:694-701 | Selection distributes over concatenation, so the selected records keep their relative order |
| `Records.Edit` | main.cpp:390-437 | Choice 1, 2 or 3 changes only the amount, the name or the date, and choice 4 changes all three; only the chosen fields are validated, amount before name; a failed check leaves the record as it was; any other choice changes nothing and reports success |
| `Records.EditKeepsWellFormed` | main.cpp:398-435 | An edit keeps a record with a non-negative amount and a non-empty name in that state |
| `Storage.AmountTextChars` | main.cpp:727 | The written form of an amount holds only digits, `-` and `.` |
| `Storage.CentsOf` | main.cpp:788 | The fraction digits of an amount are read as fewer than 100 cents |
| `Storage.ParseFraction` | main.cpp:788 | Whole digits, a point and fraction digits are read as the whole units plus the first two fraction digits as cents |
| `Storage.AmountRoundTrip` | main.cpp:788 | Every amount is read back exactly from the text it is written as |
| `Storage.ParseAmountPrefix` | main.cpp:788 | `ParseAmount` reads an unsigned whole number at the front as that many units and ignores a tail that starts with neither a digit nor a point (exponent and hexadecimal tails are outside the model; see "Left out") |
| `Storage.ParseAmountRefuses` | main.cpp:786-794 | A text that does not start with white space, a sign, a point or a digit is refused |
| `Storage.TransactionLines` | main.cpp:725-732 | One line per income or expense, in order |
| `Storage.BudgetLines` | main.cpp:733-736 | One line per budget, in order |
| `Storage.TransactionLinesAppend` | main.cpp:725-732 | One more record adds exactly its own line at the end |
| `Storage.BudgetLinesAppend` | main.cpp:733-736 | One more budget adds exactly its own line at the end |
| `Storage.NextFieldBefore` | main.cpp:760-762 | `getline` with a comma delimiter returns the text before the first comma and leaves the text after it |
| `Storage.SplitTransactionLine` | main.cpp:760-763 | A saved income or expense line splits back into its type, name, amount text and date text |
| `Storage.SplitBudgetLine` | main.cpp:760-763 | A saved budget line splits back into its type, category and limit text, with an empty date field |
| `Storage.ParseTransactionLine` | main.cpp:780-808 | A saved income or expense line with a clean name is read back as the same record, of the same type |
| `Storage.ParseBudgetLine` | main.cpp:767-774 | A saved budget line with a clean category is read back as the same budget |
| `Storage.ParseLineWithoutDate` | main.cpp:796-803 | An income line without a date field still loads, with the date 2000-01-01 00:00:00 |
| `Storage.IgnoredLines` | main.cpp:755-780 | Blank lines, lines with an empty type or first field and lines of an unknown type are skipped without a warning |
| `Storage.RefusedLines` | main.cpp:767-794 | A line of a known type whose amount does not parse is skipped with the budget warning exactly when it is a budget line, and with the amount warning exactly when it is an income or expense line |
| `Storage.Entries` | main.cpp:752-810 | Every line is read on its own, in order |
| `Storage.LoadAppend` | main.cpp:752-810 | Reading two pieces of a file one after the other is the same as reading the whole file |
| `Storage.LoadOnlyAppends` | main.cpp:752-810 | The loader never changes or removes what is already there, and each line adds at most one record |
| `Storage.LoadNextLine` | main.cpp:752-810 | One more line applies its entry to the ledger so far and adds its warning, numbered with that line's 1-based position |
| `Storage.LoadSkipsLine` | main.cpp:755-794 | A skipped or refused line leaves the ledger as it was |
| `Storage.WarningsOfQuiet` | main.cpp:767-794 | The loader prints no warning exactly when every line holds a record or is ignored |
| `Storage.TransactionLinesParse` | main.cpp:780-808 | Saved income or expense lines with clean names are read back as their records, in order |
| `Storage.BudgetLinesParse` | main.cpp:767-774 | Saved budget lines with clean categories are read back as their budgets, in order |
| `Storage.LoadTransactionLines` | main.cpp:780-808 | Loading saved income or expense lines appends exactly those records, in order, to the matching sequence, and prints no warning |
| `Storage.LoadBudgetLines` | main.cpp:767-779 | Loading saved budget lines appends exactly those budgets, in order, without looking for a category already present, and prints no warning |
| `Storage.SavedEntries` | main.cpp:725-736 | The saved lines are read back as the incomes, then the expenses, then the budgets |
| `Storage.SaveLoadRoundTrip` | main.cpp:717-814 | Loading the saved lines of a ledger with clean names into an empty tracker gives back the same three sequences, with no warning |
| `Storage.LoadKeepsDuplicateBudgets` | main.cpp:767-779 | Two budget lines for the same category load as two budgets, which breaks the one-budget-per-category invariant |
| `Storage.LoadKeepsNegativeAmount` | main.cpp:786-808 | A negative amount in the file is loaded as it is, which breaks the non-negative-amount invariant |
| `Storage.SplitFileText` | main.cpp:752 | Lines without line breaks, each followed by a line break, are read back by `getline` exactly |
| `Storage.SavedLinesHaveNoBreaks` | main.cpp:725-736 | No saved line of a ledger with clean names holds a line break |
| `Storage.FileRoundTrip` | main.cpp:717-814 | Writing the file text and reading it back line by line gives back the ledger |
| `Tracker.Sum` | main.cpp:291-303 | The accumulator loop computes the total of the amounts |
| `Tracker.ReplaceAt` | main.cpp:367-388 | Checks the index, then the amount, then the name; on success only element `index` is replaced, and on failure nothing changes; for a valid index the outcome and the new record are exactly those of choice 4 of the selective update (`Records.Edit`) |
| `Tracker.EditAt` | main.cpp:390-437 | After the index check, element `index` becomes the result of the field edit for the choice, and nothing else changes |
| `Tracker.RemoveAt` | main.cpp:439-448 | A valid index removes exactly that element and keeps the others in order, so the sequence is the old one minus that element; an invalid index changes nothing |
| `Tracker.Select` | main.cpp:694-701 | The selection loop keeps exactly the records of the period, in order |
| `Tracker.WriteTransactions` | main.cpp:725-732 | The writing loop produces the saved lines of the records, in order |
| `Tracker.WriteBudgets` | main.cpp:733-736 | The writing loop produces the saved lines of the budgets, in order |
| `Tracker.FinanceTracker.constructor` | main.cpp:325-328 | A new tracker holds what the save file holds, or nothing when there is no file |
| `Tracker.FinanceTracker.CalculateTotalIncome` | main.cpp:291-296 | The sum of all income amounts |
| `Tracker.FinanceTracker.CalculateTotalExpenses` | main.cpp:298-303 | The sum of all expense amounts |
| `Tracker.FinanceTracker.CalculateSpentInCategory` | main.cpp:305-313 | The sum of the amounts of the expenses whose category equals the given one exactly |
| `Tracker.FinanceTracker.GetBudgetOfCategory` | main.cpp:315-322 | The limit of the first budget for the category, or 0 when there is none |
| `Tracker.FinanceTracker.AddIncome` | main.cpp:335-350 | A negative amount or an empty source changes nothing; otherwise exactly one income is appended and the other two sequences are untouched; the alert is raised exactly for an added amount over 10000; the store invariant is kept |
| `Tracker.FinanceTracker.AddExpense` | main.cpp:450-491 | A negative amount or an empty category changes nothing. An amount over the balance (total income minus total expenses) raises the warning and, without confirmation, changes nothing. Otherwise exactly one expense is appended and the budget report of the new expenses is produced. The store invariant is kept |
| `Tracker.FinanceTracker.UpdateIncome` | main.cpp:367-388 | An invalid index, a negative amount or an empty source, checked in that order, changes nothing; otherwise the call succeeds and only element `index` is replaced |
| `Tracker.FinanceTracker.UpdateIncomeField` | main.cpp:390-437 | An invalid index changes nothing; otherwise only element `index` changes, as the field edit of the choice says |
| `Tracker.FinanceTracker.DeleteIncome` | main.cpp:439-448 | An invalid index changes nothing; a valid one always succeeds and the incomes become those before the index followed by those after it |
| `Tracker.FinanceTracker.UpdateExpense` | main.cpp:508-529 | An invalid index, a negative amount or an empty category, checked in that order, changes nothing; otherwise the call succeeds and only element `index` is replaced |
| `Tracker.FinanceTracker.UpdateExpenseField` | main.cpp:531-578 | An invalid index changes nothing; otherwise only element `index` changes, as the field edit of the choice says |
| `Tracker.FinanceTracker.DeleteExpense` | main.cpp:580-589 | An invalid index changes nothing; a valid one always succeeds and the expenses become those before the index followed by those after it |
| `Tracker.FinanceTracker.SetBudget` | main.cpp:591-614 | A negative limit or an empty category changes nothing; otherwise the search-then-update loop performs the upsert, and distinct categories stay distinct |
| `Tracker.FinanceTracker.CheckBudgets` | main.cpp:616-645 | "No budgets" exactly when there are none; otherwise one status per budget, in order, with its spend, percentage and tier |
| `Tracker.FinanceTracker.GenerateReportForPeriod` | main.cpp:682-715 | The bounds are swapped exactly when the start is later than the end; the incomes and expenses listed are exactly those dated within the bounds, inclusive, in their original order |
| `Tracker.FinanceTracker.SaveToFile` | main.cpp:717-739 | The lines written are every income, then every expense, then every budget, in order |
| `Tracker.FinanceTracker.LoadFromFile` | main.cpp:741-814 | Without a file nothing changes. Otherwise every line is read in order, and its record is appended to what the tracker already holds. A bad amount produces a warning that carries its 1-based line number |

## Left out

- The menu loop, the prompts and the validated-input helpers (`main`, `getValidatedInt`, `getValidatedDouble`, `getValidatedString`, `isValidDouble`, `isValidInt`, `clearInputBuffer`) are console glue; their results are the parameters of the operations.
- `getCurrentDate` reads the wall clock; dates are parameters.
- Every printed message is left out. This covers `viewTrans`, `viewIncomes`, `viewExpenses`, `generateSummary`, `generateDetailed` and the `fixed`/`setprecision` formatting. The decisions the messages report are modelled: outcomes, alerts, tiers and selected records.
- Opening, closing and failing to open the save file are I/O. The file is a sequence of lines, and a missing file is `None`.
- The save in the destructor is a lifetime hook. Saving is the explicit `SaveToFile`.
- Amounts are exact cents, not IEEE `double`.
  - The rounding of `double` sums and of `limit * 0.9` is not modelled.
  - Nor is the default 6-significant-digit stream formatting that `saveToFile` uses, which makes the real round trip lossy for large or precise amounts.
- `Storage.ParseAmount` does not model `stod`'s exponents, hexadecimal numbers, `inf` or `nan`, or its out-of-range failure. Fraction digits after the second are dropped, because amounts are whole cents.
- `Temporal.ScanFields` does not model overflow of `%d` on very long digit runs, which is undefined in C.
- `Tracker.FinanceTracker.AddIncome` returns the large-amount alert as a boolean rather than printing it; the same holds for `AddExpense`'s alert and its balance warning.
- `Tracker.FinanceTracker.CheckBudgets` returns the percentage as an exact real. The one-decimal rounding of the printout is not modelled, nor are the printed overage and headroom, which are `spent - limit` and `limit - spent`.
