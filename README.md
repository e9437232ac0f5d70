# Personal finance tracker: ledger and budget engine

A Dafny model of the ledger inside the `FinanceManager` class of a single-user,
command-line personal finance tracker. The manager keeps an ordered list of
income and expense transactions, a monthly budget, a running income total and
a running expense total, and one category list per kind of transaction. Adding
and deleting a transaction update the two totals step by step instead of
recomputing them; the model proves that they always equal a recomputation.

Files:

- `Wrappers.dfy`: `Option`.
- `Transactions.dfy`: the transaction record, its kind, `SumOf` (the from-scratch
  sum of one kind's amounts) and the lemmas that appending and removing at an
  index change that sum by exactly the one record's amount.
- `Validation.dfy`: the acceptance conditions of the three input validators,
  with Java's `String.trim` written out.
- `Budget.dfy`: the near-limit / over-limit warning.
- `Csv.dfy`: the CSV header and rows, and a comma splitter that reads rows back.
- `FinanceManager.dfy`: the class with the source's six ledger fields and its
  operations; `Valid()` is the totals invariant.

Amounts are exact `real` numbers, and `budget * 0.9` is exactly nine tenths.
The console prompts are replaced by method parameters that carry the values the
validators accepted. Each method's `requires` is what those validators
guarantee: a type code of 1 or 2, a menu choice in range, a positive amount, and
a trimmed description that is not all digits.

Where an error might be expected, the model follows the code:

- Deleting from an empty ledger changes nothing and raises no error (the source
  only prints a notice); the model's `DeleteTransaction` returns `None`.
- A new category name is trimmed and appended even when it is empty or already
  present.
- Load takes the saved fields as they are and does not check the totals against
  the transactions. `Load` states this: the manager is valid after a load
  exactly when the snapshot is consistent.
- The budget starts at 0 and is only ever set to an accepted, positive value, or to the saved value by a load.

## Model

| member | source | states |
|---|---|---|
| `Transactions.KindOf` | Group_11_Project/src/services/FinanceManager.java:67-73 | type code 1 makes an income record, and every other code makes an expense record |
| `Transactions.SumOfAppend` | Group_11_Project/src/services/FinanceManager.java:66-75 | appending a record raises its own kind's sum by its amount and leaves the other kind's sum unchanged |
| `Transactions.SumOfConcat` | Group_11_Project/src/services/FinanceManager.java:130-137 | the sum of one kind over two concatenated ledgers is the sum of the two parts |
| `Transactions.SumOfRemoveAt` | Group_11_Project/src/services/FinanceManager.java:130-137 | removing the record at any index lowers its own kind's sum by its amount and leaves the other sum unchanged, so the step-by-step update on delete equals a recomputation |
| `Transactions.SumOfNonNegative` | Group_11_Project/src/services/FinanceManager.java:69-72 | with positive amounts a kind's sum is at least 0, and it is 0 exactly when the ledger holds no record of that kind |
| `Validation.TrimStart` | Group_11_Project/src/services/FinanceManager.java:207 | the result is a suffix of the line, everything dropped is a character up to the space, and the result does not start with one |
| `Validation.TrimEnd` | Group_11_Project/src/services/FinanceManager.java:207 | the result is a prefix of the line, everything dropped is a character up to the space, and the result does not end with one |
| `Validation.TrimSlice` | Group_11_Project/src/services/FinanceManager.java:168 | trim keeps one contiguous slice of the line and drops only characters up to the space on either side of it |
| `Validation.TrimEdges` | Group_11_Project/src/services/FinanceManager.java:168 | the trimmed line is empty or neither starts nor ends with a character up to the space |
| `Validation.TrimIdempotent` | Group_11_Project/src/services/FinanceManager.java:207 | trimming a trimmed line changes nothing |
| `Validation.AcceptInt` | Group_11_Project/src/services/FinanceManager.java:176-188 | a parsed integer is accepted exactly when min <= x <= max, inclusive at both ends, and is returned unchanged; an unparsable line is rejected |
| `Validation.AcceptAmount` | Group_11_Project/src/services/FinanceManager.java:191-203 | a parsed amount is accepted exactly when it is above 0, and is returned unchanged; 0, negatives and unparsable lines are rejected |
| `Validation.AcceptDescription` | Group_11_Project/src/services/FinanceManager.java:205-213 | a line is accepted exactly when its trimmed form is non-empty and not all digits, and the trimmed form is what is returned |
| `Validation.DescriptionAcceptedIffNonDigit` | Group_11_Project/src/services/FinanceManager.java:208 | a trimmed description is accepted if and only if it holds at least one character that is not a digit |
| `Validation.AcceptDescriptionStable` | Group_11_Project/src/services/FinanceManager.java:207-209 | an accepted description, entered again, is accepted as the same text |
| `Budget.BudgetWarning` | Group_11_Project/src/services/FinanceManager.java:79-84 | near limit exactly when 0.9 * budget < expenses <= budget, over limit exactly when expenses > budget, never both, and no warning otherwise |
| `Budget.WarningRegions` | Group_11_Project/src/services/FinanceManager.java:79-84 | with a positive budget, silence means expenses are at most 0.9 * budget; with budget 0, any positive expense total is over the limit and 0 raises nothing |
| `Budget.WarningMonotone` | Group_11_Project/src/services/FinanceManager.java:79-84 | raising the expense total never takes it back out of over-limit, and lowering it never leaves silence when the budget is not negative |
| `Budget.WarningBoundaries` | Group_11_Project/src/services/FinanceManager.java:79-84 | with budget 100: 90 is silent, 91 and exactly 100 are near the limit, 100.01 is over it |
| `Csv.Rows` | Group_11_Project/src/services/FinanceManager.java:146-147 | one row per transaction, row i joining that transaction's five fields |
| `Csv.CsvLines` | Group_11_Project/src/services/FinanceManager.java:145-147 | the header `Type,Description,Amount,Category,Date` comes first, then row i + 1 is transaction i's row, in ledger order; no transactions gives the header alone |
| `Csv.CsvLinesStep` | Group_11_Project/src/services/FinanceManager.java:146-147 | the export of the first i + 1 transactions is the export of the first i followed by transaction i's row |
| `Csv.SplitField` | Group_11_Project/src/services/FinanceManager.java:147 | a field without a comma, followed by a comma, splits off as exactly one field |
| `Csv.SplitPlain` | Group_11_Project/src/services/FinanceManager.java:147 | a field without a comma reads back as itself |
| `Csv.SplitJoin` | Group_11_Project/src/services/FinanceManager.java:145-147 | splitting a comma-joined line at its commas gives back the fields, when no field holds a comma |
| `Csv.RowReadsBack` | Group_11_Project/src/services/FinanceManager.java:147 | a row whose fields hold no comma reads back as its five fields, in header order |
| `Csv.CommaInDescriptionShiftsColumns` | Group_11_Project/src/services/FinanceManager.java:147 | because rows are not quoted, a description holding one comma reads back as two fields and shifts amount, category and date one column right |
| `Finance.AddKeepsTotals` | Group_11_Project/src/services/FinanceManager.java:66-75 | appending a positive record and raising only its own kind's total by its amount keeps the totals invariant, and the result satisfies it exactly when the ledger before did |
| `Finance.DeleteKeepsTotals` | Group_11_Project/src/services/FinanceManager.java:130-137 | removing the record at any index and lowering only its own kind's total by its amount keeps the totals invariant |
| `Finance.FinanceManager.constructor` | Group_11_Project/src/services/FinanceManager.java:28-36 | a new manager has no transactions, budget and both totals 0, income categories [Salary, Bonus, Investments] and expense categories [Food, Rent, Entertainment, Bills, Shopping], and is valid |
| `Finance.FinanceManager.SetBudget` | Group_11_Project/src/services/FinanceManager.java:43-47 | the budget becomes the accepted value, which is positive, and no other field changes |
| `Finance.FinanceManager.ChooseCategory` | Group_11_Project/src/services/FinanceManager.java:156-173 | choice c in 1..n returns the c-th category and leaves both lists unchanged; choice n + 1 appends the trimmed new name to that kind's list only and returns it |
| `Finance.FinanceManager.AddTransaction` | Group_11_Project/src/services/FinanceManager.java:54-85 | appends exactly one record, with the chosen kind, category, amount, description and time, after the unchanged earlier ones; raises only the matching total by the amount; keeps the budget and the other kind's categories; the category list only grows; returns the budget warning for the new expense total; valid after exactly when valid before |
| `Finance.FinanceManager.Record` | Group_11_Project/src/services/FinanceManager.java:66-75 | the record goes at the end of the ledger, only the total of its own kind rises by its amount, and the manager is valid after exactly when it was valid before |
| `Finance.FinanceManager.DeleteTransaction` | Group_11_Project/src/services/FinanceManager.java:120-137 | on an empty ledger nothing changes; otherwise the record at 1-based position k is removed, the rest keep their order, the size drops by one, only the removed record's kind total drops by its amount, and validity is kept |
| `Finance.FinanceManager.NetSavings` | Group_11_Project/src/services/FinanceManager.java:106 | the net savings is income less expenses, and on a valid manager it is the income sum less the expense sum over the ledger |
| `Finance.FinanceManager.Save` | Group_11_Project/src/services/FinanceManager.java:221-228 | the snapshot holds the six fields in write order (transactions, budget, income total, expense total, income categories, expense categories), and it is consistent exactly when the manager's totals match its ledger |
| `Finance.FinanceManager.ExportToCsv` | Group_11_Project/src/services/FinanceManager.java:143-148 | the lines written are exactly the header and one row per transaction in ledger order, and no field changes |
| `Finance.FinanceManager.Load` | Group_11_Project/src/services/FinanceManager.java:238-247 | all six fields are replaced from the snapshot, in save order, and the manager is valid afterwards exactly when the snapshot is consistent |
| `Finance.TotalsRecomputed` | Group_11_Project/src/services/FinanceManager.java:105-112 | between operations each total equals the from-scratch sum of its kind and is not negative, and the net savings is income sum minus expense sum |
| `Finance.SaveLoadRoundTrip` | Group_11_Project/src/services/FinanceManager.java:221-247 | loading what a valid manager saved reproduces its six fields exactly and gives a valid manager |
| `Finance.AddSeedExpense` | Group_11_Project/src/services/FinanceManager.java:54-85 | adding an expense while the five seed expense categories are in place: choice c records the c-th of them at the end of the ledger, only the expense total rises by the amount, income, budget and categories are kept, and the warning is the one for the new expense total |
| `Finance.BudgetScenario` | Group_11_Project/src/services/FinanceManager.java:43-84 | through the manager's own operations, for any accepted descriptions: budget 500, then expenses of 50 (Food), 400 (Rent) and 10 (Bills) give budget 500, income 0, expenses 460, net savings -460, exactly those three records in order, and a near-limit warning |

## Left out

- Console input and output: the prompts, the printed messages, the numbered menu listings in `displayTransactions` and `chooseCategory`, and the `run` menu loop. Each operation takes as parameters the values the shell would have read.
- The retry loops of `getValidIntInput`, `getValidDoubleInput` and `getValidDescription`: only the condition under which each accepts a line is modelled.
- Number parsing (`Integer.parseInt`, `Double.parseDouble`): inputs arrive already parsed, and `None` stands for a line the parser rejects.
- Floating point: amounts, totals and `budget * 0.9` are exact reals, so the sums are exact. Java doubles may drift from the recomputed sums by rounding. Java also accepts infinite amounts: `Double.parseDouble` reads "Infinity", and "1e309" overflows to it, and the test `input > 0` lets that value through. Deleting such a record leaves its total at Infinity - Infinity = NaN, after which neither budget test is ever true. A finite sum can overflow as well: two accepted amounts of 1e308 make `totalIncome` Infinity, and deleting one of them leaves Infinity rather than 1e308. The model has no infinite or NaN values, so it does not capture this.
- Java object serialization: save is the function `Save` returning the six fields in write order, and load is `Load` from such a snapshot. A missing file, a corrupt stream and the fields that `loadFromFile` has already replaced when a later read throws are not modelled.
- The CSV file itself (creation, `PrintWriter`, `IOException`): only the sequence of lines is modelled.
- The `models` classes are not part of this model. The type label (`getType`) and the printing of an amount are parameters of the CSV functions. The timestamp is kept as the text the CSV prints; the time a new record takes from the clock is a parameter of `AddTransaction`.
- Assumed about the `models` classes: `getAmount()` returns the amount given to the constructor, and `instanceof Income` holds exactly for records made by `new Income`. The totals invariant rests on both; the model's `kind` tag and `amount` field state them by construction.
- The `scanner` field, which only serves console input.
