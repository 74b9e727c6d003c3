# ynab-amazon-import, modelled in Dafny

ynab-amazon-import reads two CSV exports of Amazon order history. The
orders export has one line per shipment of an order. The items export has
one line per item. The importer turns each shipped order into one YNAB
transaction, and splits the transaction by item when the order has several
items. All of its logic lives in `main.go`. This project models that logic
as Dafny code and proves what it promises.

| module | file | models |
|---|---|---|
| `Wrappers` | wrappers.dfy | `Option` and `Result`, Go's `(T, error)` pairs |
| `Money` | money.dfy | `parseMoney` and its regular expression `^([-])?[^\d]*(\d+)(?:[.](\d+))?$`, `strconv.ParseInt` on a 64-bit platform, and the int64 negation `a * -1` |
| `Text` | text.dfy | `truncate`, which counts runes |
| `Table` | table.dfy | the header and row part of `parseCSV`: `sort.Strings`, `sort.SearchStrings`, the column index `colm`, the list of missing columns and the row maps |
| `Ledger` | ledger.dfy | `getOrAddOrder`, `parseOrders` and `parseItems`, with the records `orderDetail` and `itemDetail` |
| `Reconcile` | reconcile.dfy | `mergeOrders` |
| `Transactions` | transactions.dfy | `buildTransactions`, its payee latch, and the part of `main` that chains the parsers into the builder |

Amounts are signed counts of thousandths of a currency unit. Charges are
negative and credits positive, as YNAB expects them.

Records are value datatypes held in `map<string, Order>`. Each Go loop is a
Dafny method with the same loop. The method is proved equal to a
specification function, and the properties are lemmas about that function:

- `ProjectTable`, `IndexColumns` and `ProjectRow` are proved against `Projected` and `ColumnIndex`.
- `ParseOrders` and `ParseItems` are proved against the fold `Scan`.
- `AddOrderAmounts` and `AddItem` are proved against `Accumulate`.
- `MergeOrders` is proved against `Merged`.
- `Split`, `BuildOne` and `BuildTransactions` are proved against `BuildTransaction`, `ChargeSubs`, `ItemSubs` and `LatchOver`.

The ledger parsers apply two cell parsers. `parseDate` wraps
`time.ParseInLocation`, which is outside this model. The parsers are
therefore a parameter `Parsers(date, money)` of the fold, and its properties
hold for any such pair. `Transactions.Import` fixes `money` to
`Money.ParseMoney` and takes the date parser as an argument.

## Model

| member | source | states |
|---|---|---|
| `Money.MatchMoney` | main.go:355-358 | a match yields a non-empty integer digit run, fraction digits, and the sign group `-` exactly when the text starts with `-` |
| `Money.ParseInt64` | main.go:360-363 | `strconv.ParseInt` is a syntax error exactly when the text is not an optional sign followed by digits; a value it returns lies in int64 |
| `Money.Neg64` | main.go:364-365 | `a * -1` on int64 stays in int64 and is `-a` modulo 2^64; it fixes exactly 0 and the int64 minimum |
| `Money.ParseMoney` | main.go:354-368 | the result is the no-match error exactly when the regular expression does not match, never a syntax error, and any amount it returns lies in int64 |
| `Money.MatchSound` | main.go:371 | every text the matcher accepts is a word of the regular expression, and the sign group is filled exactly when the text starts with `-` (Go's leftmost-first choice) |
| `Money.MatchComplete` | main.go:371 | every word of the regular expression is accepted, with the same digit and fraction groups |
| `Money.MatchEndsInDigit` | main.go:371 | whatever matches ends in a digit |
| `Money.ParseInt64Signed` | main.go:360-363 | `strconv.ParseInt` reads an optional `-` and digits as their signed value, and refuses it exactly when the value leaves the int64 range |
| `Money.Pad3Value` | main.go:359-360 | `(m[3] + "000")[:3]` keeps the first three fraction digits and pads a shorter fraction with zeros, without rounding |
| `Money.GroupsParse` | main.go:359-363 | the digit string handed to ParseInt denotes integer digits × 1000 plus the padded fraction, negated by a leading `-`, and fails only when that leaves int64 |
| `Money.ParseMoneyValue` | main.go:354-368 | on a match, `parseMoney` returns that value, or a range error, and `invert` applies int64 negation |
| `Money.InvertNegates` | main.go:364-367 | with `invert` the result is the int64 negation of the result without it; both fail together; away from the int64 minimum it is the plain negation |
| `Money.NoDigitNoMatch` | main.go:355-358 | text without a digit does not match |
| `Money.TrailingNonDigitNoMatch` | main.go:355-358 | text ending in a non-digit does not match, so a `.` needs digits after it and nothing may follow the fraction |
| `Money.OverflowFails` | main.go:360-363 | a match whose value leaves the int64 range is a range error |
| `Money.ParseFormatRoundTrip` | main.go:352-368 | every int64 amount, written as `-$units.ddd`, parses back to itself without inversion |
| `Money.InvertWrapsAtMinimum` | main.go:364-365 | `a * -1` maps the int64 minimum to itself |
| `Money.ExampleCents` | main.go:352-353 | `"$12.34"` is 12340, and -12340 inverted |
| `Money.ExampleTenths` | main.go:359-360 | `"$0.1"` is 100 |
| `Money.ExampleLeadingMinus` | main.go:371 | `"-$5"` is -5000 |
| `Money.ExampleDoubleMinus` | main.go:364-371 | in `"--5"` only the first `-` is the sign, so it is -5000, and 5000 inverted |
| `Money.ExampleInnerMinus` | main.go:371 | a `-` after the first character falls into `[^\d]*`, so `"$-5"` is 5000 |
| `Money.ExampleMalformed` | main.go:371 | `"$12."` and `"$1.2.3"` do not match |
| `Text.Truncate` | main.go:374-382 | the result is a prefix of `s`: empty when `l <= 0`, otherwise `min(runes(s), l)` runes long |
| `Text.TruncateIdempotent` | main.go:374-382 | truncating twice to the same length changes nothing more |
| `Text.TruncateShort` | main.go:378-380 | a string that fits is returned unchanged |
| `Table.SortCorrect` | main.go:290 | `sort.Strings` yields a sorted permutation, without repeats when the input has none |
| `Table.Search` | main.go:294 | `sort.SearchStrings` returns the least index whose name is not below `c` |
| `Table.SearchFinds` | main.go:294 | on a sorted list, the test `j < len(cols) && cols[j] == c` holds exactly when `c` is in the list |
| `Table.RemoveAt` | main.go:295 | removing the found name keeps the list sorted and without repeats, and removes exactly that name |
| `Table.Position` | main.go:292-297 | the first header position of a name |
| `Table.MissingStep` | main.go:292-298 | one header cell is found exactly when its name is required and not seen before, and then it leaves the list of missing names |
| `Table.ColumnIndexPositions` | main.go:291-298 | the column index maps the first position of each required header name to that name, and nothing else |
| `Table.IndexColumns` | main.go:289-301 | the header loop fails exactly when a required column is missing, and then lists every missing column once, sorted; otherwise it returns the column index |
| `Table.ProjectRow` | main.go:305-310 | a row map holds column `c` exactly when the row reaches `c`'s position, with the cell found there |
| `Table.ProjectRowMeetsSpec` | main.go:303-312 | the row built from the column index is the projected row |
| `Table.ProjectTable` | main.go:289-312 | the missing columns, sorted, or one projected row per data line in file order |
| `Table.FirstOccurrenceWins` | main.go:292-297 | for a repeated header name, the cell under its first occurrence is used |
| `Ledger.RequiredColumnsDistinct` | main.go:193 | the required columns of each export are distinct |
| `Ledger.GetOrAddOrder` | main.go:322-338 | an existing record is returned untouched; a new order gets a zero record dated from the row; the only error is a date that does not parse, for a new order |
| `Ledger.ParseAmounts` | main.go:213-219 | the money cells of a row parse exactly when every one parses, and then give their amounts |
| `Ledger.ParseAmountsReportsFirst` | main.go:213-218 | a failure reports the first money column whose cell does not parse |
| `Ledger.AccumulateOrders` | main.go:211-220 | a row of the orders file adds its four amounts to the record and leaves date and items alone |
| `Ledger.AccumulateItems` | main.go:244-262 | a row of the items file appends its item and adds the item's tax and total to the record |
| `Ledger.AddOrderAmounts` | main.go:211-220 | the amount loop of `parseOrders` computes `Accumulate` |
| `Ledger.AddItem` | main.go:244-262 | the item part of `parseItems` computes `Accumulate` |
| `Ledger.ParseOrders` | main.go:192-223 | the missing columns, or the fold of the projected rows |
| `Ledger.ParseItems` | main.go:227-266 | the missing columns, or the fold of the projected rows |
| `Ledger.Step` | main.go:200-219 | a row that has not shipped is skipped; a shipped row fails exactly when its order is new and its date does not parse, or a money cell does not parse; otherwise only its own order's record changes, and a new order gains one |
| `Ledger.StepFacts` | main.go:198-221 | one row touches only the record of its own order, and only when the row is shipped |
| `Ledger.ScanFailsEarly` | main.go:205-208 | the first error ends the parse |
| `Ledger.ScanIgnoresUnshipped` | main.go:199-202 | rows that are not exactly "Shipped" contribute nothing: the parse of all rows is the parse of the shipped ones |
| `Ledger.Scan` | main.go:198-222 | the parse of the rows in file order; on success the records are exactly the orders of the shipped rows |
| `Ledger.ScanSucceeds` | main.go:199-219 | the parse succeeds exactly when every shipped row parses: its date when it is the first shipped row of its order, and every money cell |
| `Ledger.ScanDate` | main.go:323-336 | an order's date is the one parsed from its first shipped row |
| `Ledger.ScanDatesOnlyFirst` | main.go:323-330 | only the first shipped row of each order has its date parsed |
| `Ledger.OrdersAreColumnSums` | main.go:211-220 | each record of the orders file holds, per money column, the sum over its shipped rows, and has no items |
| `Ledger.ItemsAreListed` | main.go:244-262 | each record of the items file lists the items of its shipped rows in file order, has no shipping or promotions, and its tax and total are the items' sums |
| `Reconcile.MergedShipping` | main.go:463-466 | the shipping charge only ever grows; it grows exactly when there is a shipping charge and the order charges more tax than its items, and then shipping plus tax is kept while the tax comes down to the items' |
| `Reconcile.MergeOrders` | main.go:450-478 | the loop over the items map computes `Merged` |
| `Reconcile.Merged` | main.go:450-478 | the merged keys are the union of both maps |
| `Reconcile.OrderOnlyUnchanged` | main.go:451-452 | an order missing from the items file is left untouched |
| `Reconcile.ItemOnlyAdopted` | main.go:452-457 | an order missing from the orders file keeps its item record |
| `Reconcile.SharedReconciled` | main.go:460-475 | a shared order keeps date, promotions, tax and total, takes the items list, and gains the "Missing" item exactly when the gap is non-zero |
| `Reconcile.Reconciled` | main.go:460-475 | a shared order keeps date, promotions, tax and total and lists the items of the items file first; when the item record is one the items file builds, shipping + promotions + the items' totals equal the order total |
| `Reconcile.MergedBalances` | main.go:450-478 | every merged order that the items file knows balances |
| `Transactions.Observe` | main.go:435-443 | once two sellers have been seen the latch no longer changes; otherwise the payee stays, becomes the new seller, or is cleared when a second seller appears |
| `Transactions.LatchOver` | main.go:426-443 | after two different sellers the payee is empty; otherwise every seller seen is empty or the payee |
| `Transactions.LatchAgrees` | main.go:426-443 | the payee latch skips empty sellers before the first named one, then keeps that seller when every later seller matches it, and otherwise ends empty |
| `Transactions.OnePayee` | main.go:438-443 | items that share one truncated seller give it as the payee |
| `Transactions.TwoPayees` | main.go:435-443 | a named seller followed by a different one leaves the payee empty for good |
| `Transactions.LeadingBlankSkipped` | main.go:435-443 | an empty seller before a named one does not block it |
| `Transactions.LatchPicksAName` | main.go:426-443 | the payee is empty or one of the item payees |
| `Transactions.Split` | main.go:410-444 | the split loop builds the leftover-charge sub-transaction, then one per item, and the latched payee |
| `Transactions.BuildOne` | main.go:388-444 | the body of the builder's loop computes `BuildTransaction` for one merged order |
| `Transactions.BuildTransactions` | main.go:385-447 | one transaction per merged order, as `BuildTransaction` describes |
| `Transactions.BuildTransaction` | main.go:388-444 | a transaction books the order's total on the order's date, and is split exactly when the order has more than one item |
| `Transactions.FieldsFit` | main.go:398-434 | memos are at most 200 runes and payee names at most 50 |
| `Transactions.SplitShape` | main.go:398-434 | orders with at most one item are not split; otherwise at most one leftover sub-transaction paid to "Amazon" and then one per item in order |
| `Transactions.SplitSumsToAmount` | main.go:410-434 | the split of a balanced order sums to the transaction's amount |
| `Transactions.MergedSplitsAddUp` | main.go:385-478 | every split transaction of the merged parser output sums to its amount |
| `Transactions.Import` | main.go:87-97 | the orders file is checked and parsed first and its error is the one reported; then the items file; the import succeeds exactly when both parse, and then the transactions are built from the merge of both parses and every split adds up |

## Left out

- `main`'s flags, logging, dry-run JSON output and the HTTP post to YNAB (main.go:67-116), and `budgetAccount` (main.go:119-156): I/O and remote calls.
- Opening the files and the `encoding/csv` tokenizer (main.go:271-287, 304, 313-315): rows arrive already split into fields. The tokenizer's own field-count checks are not modelled.
- `parseDate` and `time.ParseInLocation` (main.go:341-347): library date parsing that depends on the time zone, taken as a given function `string -> Option<Date>`.
- The `String()` formatters (main.go:167-188) and the `log.Printf` line in `mergeOrders` (main.go:455): they only log.
- The order of the returned transactions, which follows Go's map iteration: transactions are a map from order ID.
- `AccountID`, `Cleared` and `FlagColor` (main.go:389-394): constants that pass through unchanged.
- The generated files `models/save_transactions_response.go` and `client/budgets/get_budgets_responses.go`: serialization and transport plumbing.
- Pointer aliasing: Go updates the records and the orders map in place. The model returns new maps and records, which is what the callers observe because the inputs are not used afterwards.
- Ledger.OrdersAreColumnSums: sums are unbounded integers; the int64 wrap-around of `+=` on very large totals (main.go:218) is not modelled. Only `parseMoney` is exact to int64.
- Ledger.ItemsAreListed: the record's tax and total are unbounded sums; the int64 wrap-around of `+=` (main.go:260-261) is not modelled.
- Reconcile.MergedShipping: the subtraction and `+=` (main.go:464-469) are unbounded as well; int64 overflow is not modelled.
- Transactions.Split: the leftover charge `shippingCharge + totalPromotions` (main.go:411) is an unbounded sum; its int64 overflow is not modelled.
- Transactions.BuildTransaction: the leftover charge of a split order is the same unbounded sum as in `Split` (main.go:411).
- Text.Truncate: strings are sequences of Unicode scalar values. Go's `utf8.RuneCountInString` and `[]rune(s)` (main.go:378-381) read each invalid UTF-8 byte as one U+FFFD rune; that decoding is not modelled.
- Table.IndexColumns: requires the required column names to be distinct, as both callers' literal lists are (`Ledger.RequiredColumnsDistinct`); with repeated names Go's result would depend on map iteration order.
- Table.Search: the binary search of `sort.SearchStrings` is modelled by the index it returns, a linear scan for the least index not below the name, which equals the binary search on a sorted list.
- Money.ParseInt64Signed: `strconv.ParseInt` with bit size 0 is taken on a 64-bit platform, so its range is int64.
