# Finance tool bookkeeping core in Dafny

This project models the bookkeeping core of a client-side small-business
finance tool. The tool keeps inventory items, stock movements, purchases,
sales, expenses, ledger entries, parties and bank accounts. Every purchase,
sale and expense form submission derives stock movements and ledger
postings from the record it saves. Cash and loan forms write ledger entries
directly. The reports fold over those collections: profit and loss, cost of
goods sold, cash flow, inventory valuation, sales and expense analysis, tax,
dashboard KPIs, receivable and payable aging, and the ledger balance. The
IndexedDB layer keeps nine object stores keyed by `id`, seeds them with
sample data on first open, and exports and imports whole-database snapshots.
A set of in-browser self-tests checks four invariants over the live state.

The modules follow the program's files:

- `Records` defines the entities as datatypes, plus the id lookup and the upsert used on every collection.
- `Utils` covers `sum`, `groupBy`, the aging bucket classifier, the character filter of `parseNumber`, `weightedAverageCost` and `paginate`.
- `Rle` covers the run-length codec of `utils.js` and the attachment wrappers around it.
- `Stock` covers available stock, movement retraction and the weighted-average cost update.
- `Postings` covers the ledger batches that purchases, sales and expenses post, their totals, and retraction by reference.
- `Engine` covers the in-memory `state` of `app.js`. It is a class `Books` with one `seq` field per collection, and each form handler is a method on it.
- `Reports` covers the report functions of `reports.js`.
- `Store` covers the database of `db.js`. It is a class `Database` holding a map from store name to an id-keyed table, with `add`, `remove`, `getAll`, export, import and seeding.
- `Seed` covers the sample data and `buildStockMovements`.
- `SelfTests` covers `runInBrowserTests`.

Money and quantities are exact `real` numbers. `Number(x.toFixed(2))`
becomes `Utils.RoundToCents`: round half up to two decimals, which is what `toFixed` does for the positive amounts it is applied to. Fresh uuids and
today's date are parameters, and so are day counts since a due date,
`atob`/`btoa` and `parseFloat`.

The model follows the code wherever the design intent and the code differ:

- An edited sale's stock check counts the sale's old movement. That movement is only retracted afterwards.
- Loan and capital entries are a single unmatched credit.
- There is no delete operation.
- There is no amount validation on the inventory, expense and cash forms.
- The database version constant is 2.

## Model

| member | source | states |
|---|---|---|
| Records.FindIndex | app.js:38 | the first index whose id matches, with no match before it; `None` exactly when no element has the id |
| Records.Find | app.js:598 | a record is found exactly when some element has the id, and it is the first element with that id |
| Records.Upsert | app.js:35-44 | with no element of that id the record is appended; otherwise the first such element is replaced in place, length and every other element unchanged |
| Records.UpsertThenFind | app.js:35-44 | after an upsert, looking the id up finds the upserted record |
| Records.UpsertIdempotent | app.js:35-44 | upserting the same record twice equals upserting it once |
| Records.UpsertKeepsIdsUnique | app.js:35-44 | upsert keeps the ids of a collection pairwise distinct |
| Records.ContainsAt | app.js:348 | the substring test used for retraction holds exactly when the id occurs at some offset of the description |
| Utils.Filter | reports.js:12-13 | the result keeps exactly the elements satisfying the predicate, and nothing else |
| Utils.SumAppend | utils.js:87 | the sum fold is additive over concatenation |
| Utils.SumFilterPartition | reports.js:115-116 | summing the two parts of a complementary split gives the sum of the whole |
| Utils.GroupByCorrect | utils.js:80-85 | group keys are distinct and are exactly the keys present; each group holds exactly the elements with its key, in original order; group sizes sum to the list length; grouped sums equal the total sum |
| Utils.GroupByGroups | utils.js:80-85 | every group is non-empty and is the in-order sublist of its key |
| Utils.BucketForDays | utils.js:33-37 | days <= 0 gives Current; 1-30, 31-60 and 61-90 give their buckets; above 90 gives 90+ Days; each as an if-and-only-if |
| Utils.AgingBucket | utils.js:30-38 | a missing or empty due date gives Current; otherwise the bucket of the day count since the due date |
| Utils.BucketsAreOrderedAndDistinct | utils.js:30-38 | the five labels are distinct, and the bucket rank never decreases as the day count grows |
| Utils.KeepNumericChars | utils.js:48 | keeps only digits, '.' and '-', every such character of the input survives, and the result is no longer than the input |
| Utils.KeepNumericCharsAppend | utils.js:48 | the character filter distributes over concatenation, so the kept characters stay in their original order |
| Utils.KeepNumericCharsIdempotent | utils.js:48 | filtering twice equals filtering once |
| Utils.ParseNumber | utils.js:45-50 | a number is returned unchanged; a missing or empty value gives 0; otherwise the parse of the filtered text, or 0 when that does not parse |
| Utils.ParseNumberIgnoresFormatting | utils.js:45-50 | parsing a text equals parsing its filtered text |
| Utils.WeightedAverage | utils.js:69-78 | 0 for an empty list or zero total quantity; otherwise the average times the total quantity equals the total cost |
| Utils.WeightedAverageCost | utils.js:69-78 | the loop's running totals produce exactly the weighted average |
| Utils.WeightedAverageExample | utils.js:69-78 | ten units at 5 and ten at 7 average to 6 |
| Utils.WeightedAverageBetween | utils.js:69-78 | with every quantity positive, the average lies between the least and the greatest cost |
| Utils.RoundToCents | app.js:660 | the rounded amount is within half a cent of the input, is a whole number of cents, and equals the input when the input already is one |
| Utils.PageCount | utils.js:99 | at least one page; the pages cover all items; one fewer page would not, unless there is only one |
| Utils.Paginate | utils.js:97-109 | total is the input length; pages is the page count; the page is the request clamped to 1..pages; the items are the slice of that page, at most pageSize of them |
| Rle.RunLength | utils.js:140-147 | a run is 1..255 equal bytes and ends at the input's end, at 255, or before a different byte |
| Rle.RleRoundTrip | utils.js:137-160 | decoding the encoding of any byte string gives the string back |
| Rle.RleEncodeShape | utils.js:137-150 | the encoding has even length, every count is in 1..255, it is empty exactly for empty input, and it is at most twice the input's length |
| Rle.RleEncodeFirstPair | utils.js:137-150 | the first pair is the first byte and its run length |
| Rle.RleCompress | utils.js:137-150 | the loop's output equals the run-length encoding of its input |
| Rle.RleDecompress | utils.js:152-160 | the loop's output equals the run-length decoding of its input |
| Rle.CompressToBase64 | utils.js:117-125 | no file gives null; an undecodable payload throws; otherwise the whole header, then ";RLE1,", then the encoded payload |
| Rle.DecompressFromBase64 | utils.js:127-135 | an empty input gives null; it throws exactly when the payload does not decode; otherwise the first header field, a comma, and the re-encoded payload, run-length decoded exactly when the second header field is the marker |
| Rle.CompressedForm | utils.js:117-125 | a file's data URL compresses to its header with the marker appended, followed by the encoded content |
| Rle.WrappersDoNotRoundTrip | utils.js:117-135 | compressing a base64 data URL puts the marker third in the header, and decompressing it returns the still-encoded bytes under the short header, which differs from the original URL |
| Rle.RoundTripCounterexample | utils.js:117-135 | three equal bytes encode to a different byte string, so returning the encoded bytes is visible |
| Rle.FixedWrappersRoundTrip | utils.js:117-135 | with a decoder that finds the marker where the encoder writes it, decompressing a compressed data URL gives the original URL |
| Rle.FixedReadsMarker | utils.js:127-135 | the corrected decoder decodes a payload whose header ends with the marker and strips the marker |
| Rle.FixedDecoderKeepsPlainUrls | utils.js:127-135 | the corrected decoder returns an unmarked data URL unchanged |
| Stock.StockAppend | app.js:912-914 | available stock is additive over concatenated movement lists |
| Stock.StockIsFilterReduce | app.js:912-914 | available stock equals the filter-then-reduce of the item's movement quantities |
| Stock.StockOfOne | app.js:912-914 | one movement adds its quantity to its own item's stock and nothing to any other item's |
| Stock.MatchedIds | app.js:358-361 | the collected ids are exactly the ids of the movements matching the edited transaction |
| Stock.RemoveMatched | app.js:355-366 | retraction keeps only movements whose id was not matched, keeps all those, and leaves no matching movement |
| Stock.RemoveMatchedExactly | app.js:355-366 | retraction equals filtering out the movements that reference the record, or that lack a reference and match item, type, date and absolute quantity |
| Stock.RetractionStock | app.js:355-366 | retraction lowers the stock by exactly the stock of the removed movements |
| Stock.StockAfterSale | app.js:677-732 | after an accepted sale, with or without retracting an edited sale, the item's stock is at least the stock before less the quantity, which is at least zero |
| Stock.SaleEditExample | app.js:677-732 | opening 20, sale 5, then the sale edited to 8 leaves 12 |
| Stock.ToCostLines | app.js:658 | one cost line per movement with its quantity and cost |
| Stock.InflowLines | app.js:657 | the cost lines are exactly those of the item's positive-quantity movements: each line comes from one, and each one gives a line |
| Stock.InflowLinesAppend | app.js:657 | the inflow lines of a concatenation are those of each part, in order |
| Stock.InflowLinesOfOne | app.js:657 | one movement gives its quantity and cost as a line exactly when it is a positive movement of the item |
| Stock.RecalculatedCost | app.js:659-660 | when the average is positive and more than a cent away from the cost, the cost becomes the average rounded to cents; otherwise it stays |
| Stock.RecalculatedItems | app.js:654-663 | only the first item with the id gets the recalculated cost; an unknown id changes nothing |
| Stock.RecalculatedCostInRange | app.js:654-663 | when the cost and every positive inflow cost are in a range, the recalculated cost stays within a cent of that range |
| Postings.Stamp | app.js:743-754 | each line becomes an entry with its own fresh id, the record's date and the line's account, type, amount and description |
| Postings.TransactionPostings | app.js:740-756 | every entry is dated with the record's date and has its own fresh id; a purchase debits inventory by the total, then credits cash by a positive paid amount and accounts payable by a positive balance; a sale debits accounts receivable by the balance, credits sales income by the total, then debits cash by a positive received amount |
| Postings.TransactionTotals | app.js:740-756 | a purchase debits its total and credits paid and balance when positive; a sale debits balance and positive received and credits its total; the cash totals are stated too |
| Postings.TransactionPostingsBalanced | app.js:740-756 | when the payment is between 0 and the total and the balance is the rest, the batch's debits equal its credits, both equal to the total |
| Postings.NegativePaymentUnbalances | app.js:740-756 | with a negative payment the batch is out of balance by exactly the payment, since the cash line is skipped |
| Postings.ExpensePostings | app.js:792-801 | an expense posts an `expense:<category>` debit and a cash credit, both of its amount and both described with its id |
| Postings.ExpenseTotals | app.js:792-801 | an expense batch's debits equal its credits equal its amount, all of it a cash credit |
| Postings.TransactionPostingsMentionRecord | app.js:743-754 | every description of a transaction batch contains the record id |
| Postings.ExpensePostingsMentionRecord | app.js:794-795 | both expense descriptions contain the expense id |
| Postings.RemoveReferencing | app.js:346-353 | an empty id removes nothing; otherwise exactly the entries whose description contains the id are removed and the rest are kept |
| Postings.RemoveReferencingAppend | app.js:346-353 | retraction distributes over concatenation, so kept entries stay in order |
| Postings.RetractRemovesPostings | app.js:721-733 | retracting a record's id removes every entry its batch posted |
| Postings.RetractRemovesExpensePostings | app.js:784-785 | retracting an expense's id removes every entry its batch posted |
| Postings.RetractionIsBySubstring | app.js:348 | any entry, a hand-typed cash entry included, whose description contains the id is retracted |
| Engine.PickDate | app.js:695 | the form date if filled in, else the existing record's non-empty date, else today, each case stated |
| Engine.Validate | app.js:671-690 | accepted exactly when quantity is positive, a sale does not exceed available stock, and payment is within quantity times rate; each rejection reason matches its condition |
| Engine.Existing | app.js:694 | an existing record is found only for a non-empty id and carries that id; otherwise none has it |
| Engine.TransactionRecord | app.js:691-718 | total is quantity times rate; balance is total less payment; a sale carries only received and a purchase only paid; the date is the picked date; an edit keeps the record's id and its non-empty attachment; a new record takes the form's id if set, else a fresh one, and has no attachment |
| Engine.SaleCost | app.js:729 | the cost of the first item with the id when that cost is non-zero; the rate when no item has the id or its cost is zero |
| Engine.TransactionMovement | app.js:725-732 | one movement referencing the record: plus quantity at the rate for a purchase, minus quantity at the sale cost of the item for a sale |
| Engine.EditedItem | app.js:603 | an edited item keeps its id and opening date and takes the form's sku, name, category, cost, opening stock and reorder level |
| Engine.NewItem | app.js:623-627 | a new item gets the fresh id, today's opening date and the form's sku, name, category, cost, opening stock and reorder level |
| Engine.OpeningFor | app.js:630-637 | an item's opening movement has the given id and date, references the item and carries its opening stock and cost |
| Engine.OpeningIndex | app.js:606 | the first movement referencing the item or being its opening movement, or none |
| Engine.ExpenseRecord | app.js:769-781 | an expense takes the form's amount, category and party and the picked date; a recurring one takes the form's frequency, else the existing non-empty one, else 'monthly', and a one-off has none; an edit keeps id and attachment |
| Engine.CashRecord | app.js:809-815 | a cash entry takes the form's bank, type, amount and description and the picked date; an edit keeps id, party and interest |
| Engine.PartyName | app.js:837 | the first party with the id gives its name when that is non-empty; otherwise the id itself |
| Engine.LoanRecord | app.js:834-846 | a loan or capital entry is a single credit on 'loans' or 'capital' with the picked date, the form's party and interest, described as "<type> entry for <party>" |
| Engine.BankDelta | app.js:378-382 | deposit, debit and transfer entries add their amount; withdrawal and credit entries subtract it; any other type moves nothing |
| Engine.AdjustedBanks | app.js:374-384 | only the first bank with the entry's account id changes, by direction times the signed amount; a non-bank account changes nothing |
| Engine.AdjustUndoRedo | app.js:818-821 | undoing and then redoing the same entry restores every balance |
| Engine.CashEditNets | app.js:818-821 | editing a cash entry nets the new signed amount less the old on its bank |
| Engine.CashEditExample | app.js:818-821 | a deposit of 100 on 500 gives 600, and editing it to 150 gives 650 |
| Engine.Books.constructor | app.js:2-13 | the state holds the given collections |
| Engine.Books.UpsertItem | app.js:35-44 | items become the upsert of the record; every other collection is unchanged |
| Engine.Books.UpsertTransaction | app.js:35-44 | the sales or purchases become the upsert of the record; every other collection is unchanged |
| Engine.Books.UpsertExpense | app.js:35-44 | expenses become the upsert of the record; every other collection is unchanged |
| Engine.Books.UpsertEntry | app.js:35-44 | ledger entries become the upsert of the record; every other collection is unchanged |
| Engine.Books.RemoveLedgerEntriesForReference | app.js:346-353 | the ledger becomes its retraction by the id; every other collection is unchanged |
| Engine.Books.RemoveStockMovementsForTransaction | app.js:355-366 | movements become the retraction for the record, or stay unchanged without one; every other collection is unchanged |
| Engine.Books.AdjustBankBalance | app.js:374-384 | banks become the adjusted banks; every other collection is unchanged |
| Engine.Books.RecalculateItemCost | app.js:654-663 | items become the recalculated items for the id; every other collection is unchanged |
| Engine.Books.AddStockMovement | app.js:645-652 | the movement is appended, and item cost is recalculated exactly for a purchase or opening movement |
| Engine.Books.RegisterLedgerEntries | app.js:740-761 | the ledger grows by exactly the transaction's batch |
| Engine.Books.RegisterExpenseLedger | app.js:792-801 | the ledger grows by exactly the expense's batch |
| Engine.Books.CheckTransaction | app.js:671-690 | the rejection, if any, is the validation of the form against the item's current stock |
| Engine.Books.PostTransaction | app.js:719-733 | the record is upserted; an edit first retracts the old movements and entries; then one movement and the batch are appended and the cost recalculated for a purchase |
| Engine.Books.HandleTransactionSubmit | app.js:665-738 | a rejection leaves the whole state unchanged; acceptance upserts the record, retracts an edited record's movements and entries, appends one movement and the ledger batch, and recalculates a purchase's item cost |
| Engine.Books.HandleInventorySubmit | app.js:584-643 | an unknown edit id is rejected with no change; a new item is appended with an opening movement and its cost recalculated; an edit upserts the item and rewrites the first opening movement in place without recalculating cost |
| Engine.Books.HandleExpenseSubmit | app.js:763-790 | the expense is upserted, entries mentioning its id are retracted, and its two postings are appended |
| Engine.Books.HandleCashSubmit | app.js:803-826 | the entry is upserted; an edited entry's old effect is undone on its bank and the new effect applied |
| Engine.Books.HandleLoanSubmit | app.js:828-853 | one credit entry is upserted, with no bank change and no matching debit |
| Engine.AcceptedTransactionBalanced | app.js:687-756 | a submission that passes validation with a non-negative payment posts a balanced batch equal to quantity times rate |
| Engine.EditRetractsOwnMovement | app.js:721-732 | the movement a record posts is matched, and removed, when that record is later edited |
| Engine.AcceptedSaleKeepsStock | app.js:677-732 | after an accepted sale the item's stock is at least the stock before less the quantity, which is at least zero |
| Engine.StockCheckPrecedesRetraction | app.js:677-722 | with opening 20 and a sale of 5, editing the sale to 18 is rejected although 20 would be available once the old movement is retracted |
| Engine.ExpenseResubmitReplaces | app.js:784-785 | resubmitting an expense replaces its previous postings with the new ones |
| Engine.NewLoanUnbalances | app.js:828-848 | a new loan entry raises credits by its amount and leaves debits unchanged, so the ledger goes out of balance |
| Reports.CogsCountsOnlySales | reports.js:11-15 | COGS is the sum over movements of absolute quantity times cost for sales only |
| Reports.CogsIgnoresNonSales | reports.js:11-15 | opening and purchase movements add nothing to COGS |
| Reports.CogsNonNegative | reports.js:11-15 | COGS is never negative when costs are not negative |
| Reports.CalculateProfitAndLoss | reports.js:2-9 | revenue, COGS and expenses are their sums; gross profit is revenue less COGS; net income is revenue less COGS less expenses |
| Reports.CalculateCashFlow | reports.js:17-24 | inflows are received amounts, a missing one as 0, plus cash debits; outflows are paid amounts, expense amounts and cash credits; net is inflows less outflows |
| Reports.CashFlowCountsSaleTwice | reports.js:17-24 | posting a sale with cash received raises inflows by twice the received amount |
| Reports.CashFlowCountsExpenseTwice | reports.js:17-24 | posting an expense raises outflows by twice its amount |
| Reports.CashFlowFromLedger | reports.js:17-24 | the cash flow read from the cash ledger rows alone, with net inflows less outflows |
| Reports.LedgerCountsSaleOnce | reports.js:17-24 | in the ledger-only cash flow a posted sale raises net by its received amount once |
| Reports.LedgerCountsExpenseOnce | reports.js:17-24 | in the ledger-only cash flow a posted expense lowers net by its amount once |
| Reports.CalculateInventoryValuation | reports.js:26-33 | one row per item, in order; the quantity is the item's available stock; value is quantity times cost; the total is the sum of values |
| Reports.ValuationNonNegative | reports.js:26-33 | with non-negative stock and costs, the total value is not negative |
| Reports.SortByTotal | reports.js:41 | the ranking is sorted by non-increasing total and is a permutation of its input |
| Reports.SortKeepsSum | reports.js:41 | ranking keeps the sum of any measure |
| Reports.CalculateSalesAnalysis | reports.js:35-48 | both lists are sorted by non-increasing total and are permutations of the rows of the customer and item groups, each row the name and the sale totals of its key; their totals sum to total sales |
| Reports.CustomerRowsByKey | reports.js:36-41 | the unranked customer rows are the rows of the group keys, in key order |
| Reports.ItemRowsByKey | reports.js:37-46 | the unranked item rows are the rows of the group keys, in key order |
| Reports.CategoryKey | reports.js:51 | a missing or empty category is grouped under "Other" |
| Reports.CalculateExpenseAnalysis | reports.js:50-58 | the rows are sorted by non-increasing total and are a permutation of the rows of the category group keys, each row the amount and recurring count of its category's expenses; the totals sum to all expenses |
| Reports.CategoryRowsByKey | reports.js:51-57 | the unranked category rows are the rows of the group keys, in key order |
| Reports.CalculateDefaultTaxSummary | reports.js:60-66 | without a rate, output, input and net tax are taken at 18% |
| Reports.CalculateTaxSummary | reports.js:60-66 | taxable sales and purchases are the totals; output and input tax are those times the rate; net tax is their difference times the rate, and equals output less input tax |
| Reports.CalculateDashboardKPIs | reports.js:68-82 | six titled figures in the dashboard's order: revenue, net income as revenue less COGS less expenses, cash net, inventory value, and the sums of sale and purchase balances |
| Reports.KpisMatchAging | reports.js:68-82 | the receivables and payables figures equal the totals of their aging reports |
| Reports.AddToBucket | reports.js:92-95 | a balance is added to its bucket alone |
| Reports.AgingSumsToBalances | reports.js:84-112 | each balance lands in exactly one bucket, so the five bucket totals sum to the sum of balances |
| Reports.UndatedIsCurrent | reports.js:84-97 | with no due dates, everything is Current |
| Reports.CalculateReceivableAging | reports.js:84-97 | the bucket totals sum to the sales balances |
| Reports.CalculatePayableAging | reports.js:99-112 | the bucket totals sum to the purchase balances |
| Reports.CalculateLedgerBalance | reports.js:114-118 | debits and credits are the sums of the debit and credit entries; balanced exactly when they differ by less than a cent |
| Reports.OtherTypesIgnored | reports.js:114-118 | deposit, withdrawal, transfer and other rows change neither debits nor credits |
| Reports.PostingKeepsBalance | reports.js:114-118 | appending a balanced transaction batch keeps debits less credits unchanged |
| Reports.ExpensePostingKeepsBalance | reports.js:114-118 | appending an expense batch keeps debits less credits unchanged |
| Store.StoreNamed | db.js:4 | a name resolves only to the store of that name |
| Store.NameRoundTrip | db.js:4 | every store's name resolves back to it |
| Store.StoreOrderComplete | db.js:4 | the store list names every store |
| Store.Put | db.js:100-102 | a put replaces or inserts by id, and fails exactly on a sku clash in the sku-unique store |
| Store.PutKeepsValid | db.js:26-29 | a put keeps every record under its own id and the items' skus unique |
| Store.EnsureArray | utils.js:169 | an array is returned as is, anything else gives an empty list |
| Store.ExportedAt | db.js:292-302 | the import resolves to the snapshot's exportedAt when the snapshot has truthy data and a truthy exportedAt; otherwise, a bare data object included, to now |
| Store.PutAllLastWins | db.js:299 | after putting a list, an id maps to the last element carrying it |
| Store.PutAllKeepsUntouched | db.js:299 | ids no element carries keep their record |
| Store.ImportStoresShape | db.js:296-300 | a completed import fills exactly the listed stores, each keyed by id and sku-unique where required |
| Store.ImportStoresLookup | db.js:296-300 | a completed import holds in each listed store the puts of that store's array |
| Store.ImportKeepsValid | db.js:291-305 | a completed import of all nine stores is a valid database |
| Store.HaltedShape | db.js:296-300 | an import that meets a non-record has written every store up to the first one that holds it, each with what its puts issued, and no later store |
| Store.ImportOfNonRecordEmptiesItems | db.js:291-300 | importing `{"data": {"items": [42]}}` halts in the items store with that store cleared |
| Store.ExportImportRoundTrip | db.js:286-305 | a snapshot that lists every store in full imports back to the same stores and resolves to its export time |
| Store.ImportOfExport | db.js:275-305 | importing data that lists every store's records yields exactly those stores |
| Store.PutBatch | db.js:127-134 | after a batch of puts every record's id is stored, under the last record that carries it; records whose id no record carries keep their value, no other key appears, and no other store is touched; it succeeds exactly when the puts of the batch in order go through, leaving the table they leave; it can fail only in the sku-unique store, and then changes nothing |
| Store.PutRecordsUnchecked | db.js:127-134 | without the sku index every batch of puts goes through |
| Store.DistinctSkusFit | db.js:26-29 | a batch whose skus are pairwise distinct and held by no record of the table never clashes on the sku index |
| Store.SeedCatalog | db.js:127-129 | seeding parties, items and banks succeeds exactly when the item puts pass the sku index; it stores each under the last record of its id, adds no other item and touches no other store |
| Store.SeedHistory | db.js:130-133 | seeding expenses, purchases, sales and movements stores each under the last record of its id and touches no other store |
| Store.SeedTables | db.js:126-136 | the whole seeding transaction succeeds exactly when the item puts pass the sku index; it either fails with no change or leaves the ledger and attachments untouched, adds no other item, and holds the last record of every id in each of the seven seeded stores |
| Store.Database.constructor | db.js:26-79 | the database starts with nine empty stores and an empty meta store |
| Store.Database.Add | db.js:100-102 | add is an upsert by id, rejected exactly on a sku clash in the items store; the meta store is untouched |
| Store.Database.Remove | db.js:104-106 | remove deletes exactly that id from that store |
| Store.Database.GetAll | db.js:92-94 | lists exactly the store's records, each id once |
| Store.Database.ExportSnapshot | db.js:275-289 | the snapshot carries the version, the time, and every store in full |
| Store.Database.ImportSnapshot | db.js:291-305 | a non-object is rejected with no change; a sku clash rolls everything back; a non-record element keeps the stores written up to and including its store's cleared-and-put prefix and rejects; otherwise every store is replaced by the import of the data, bare or wrapped, and the result is the export time; the meta store is untouched |
| Store.Database.SeedData | db.js:108-141 | seeding happens exactly when the items store is empty and the item puts pass the sku index, and otherwise changes nothing; it leaves the ledger and attachments untouched, stores exactly the sample items, and holds the last record of every id in each of the seven seeded stores |
| Seed.SampleItems | db.js:182-196 | ten items opened today with positive cost and opening stock |
| Seed.SampleItemsFit | db.js:182-196 | the ten sample skus are distinct, so seeding an empty items store passes the sku index |
| Seed.SampleParties | db.js:198-211 | ten parties |
| Seed.SampleBanks | db.js:213-217 | three banks with positive balances |
| Seed.SampleExpenses | db.js:219-228 | five expenses with positive amounts, recurring exactly when they have a frequency |
| Seed.PartiesWithRoles | db.js:231 | a party list with a supplier and a customer has both filters non-empty |
| Seed.SamplePurchase | db.js:233-249 | a purchase's total is quantity times rate, and paid plus balance is the total |
| Seed.SamplePurchases | db.js:230-250 | one purchase for each of the first five items, with quantity 5 + 2i, and paid plus balance equal to total |
| Seed.SampleSale | db.js:255-271 | a sale's total is quantity times rate, and received plus balance is the total |
| Seed.SampleSales | db.js:252-273 | one sale for each of items four to eight, with quantity 3 + i, and received plus balance equal to total |
| Seed.BuildStockMovements | db.js:143-180 | the three loops produce the opening, purchase and sale movements in that order |
| Seed.SeedMovementsParts | db.js:143-180 | the movements are |items| + |purchases| + |sales| long, split into the three parts |
| Seed.OpeningsShape | db.js:145-155 | each item yields one opening movement of its opening stock at its cost, referencing the item |
| Seed.PurchaseInflowsShape | db.js:156-166 | each purchase yields one movement of its quantity at its rate, referencing the purchase |
| Seed.SaleOutflowsShape | db.js:167-178 | each sale yields one movement of minus its quantity at the item cost or rate, referencing the sale |
| Seed.SeedStock | db.js:143-180 | an item's seeded stock is its opening stock plus purchased less sold quantities |
| Seed.SeedLeavesItem8Negative | db.js:182-273 | the sample data leaves item-8 at 5 − 7 = −2 units |
| SelfTests.RunInBrowserTests | app.js:916-939 | four results: stock passes exactly when no item is negative; receivables always pass; P&L passes exactly when COGS is under a cent; the ledger check is the balance report's flag |
| SelfTests.ReceivablesAlwaysMatch | app.js:921-924 | the receivables check cannot fail |
| SelfTests.LedgerCheckIsBalance | app.js:929-930 | the ledger check agrees with the ledger report's balanced flag |
| SelfTests.PnlCheckTestsCogs | app.js:926-927 | the P&L check as written passes exactly when COGS is under a cent |
| SelfTests.PnlCheckFailsAfterOneSale | app.js:926-927 | a single sale of one unit at cost 10 makes the check as written fail |
| SelfTests.PnlCheckHolds | app.js:926-927 | the identity net income = revenue − COGS − expenses holds on every state |
| SelfTests.RunInBrowserTestsFixed | app.js:916-939 | with the intended P&L identity, the receivable and P&L checks always pass |
| SelfTests.LedgerCheckKeptByPosting | app.js:929-930 | posting a transaction whose payment is within its total keeps a passing ledger check passing |
| SelfTests.LedgerCheckKeptByExpense | app.js:929-930 | posting an expense keeps a passing ledger check passing |
| SelfTests.FreshSeedFailsStockCheck | app.js:918-919 | on a freshly seeded database the stock check fails |

## Left out

- The IndexedDB writes that mirror each state change in the `app.js` handlers are not modelled. So a sku clash thrown by `add` in the middle of a handler is also out, and the engine assumes every write succeeds.
- Attachments are not modelled: uploading, saving and removing them, and `readFileAsDataURL`.
- `Utils.uuid`, `toISODate`, `diffInDays` and `addDays` are parameters. Ids are drawn fresh by the caller, and aging takes a day count. The opening date of a seeded item is stored unchanged, as if `toISODate` were the identity on dates it produced.
- `atob`, `btoa` and `parseFloat` are parameters. Base64 is assumed only to invert itself and never to emit a comma.
- Rle.CompressToBase64: the RangeError that `String.fromCharCode(...compressed)` (utils.js:123) throws when a large file exceeds the engine's argument limit is not modelled; the engine-dependent limit is not part of the language.
- JavaScript numbers are exact reals: no floating-point rounding, no NaN and no infinities. `Number(x.toFixed(2))` is round half up to cents; `toFixed` rounds half away from zero, which agrees for the positive averages it is applied to (app.js:659-660).
- Object-key order in `Object.entries` and `Object.values` is taken as first-insertion order for `groupBy`. The five aging buckets are summed in their declared order.
- The order of records returned by `getAll` is not modelled. A store is a map from id to record.
- The `meta` store's `setMeta`, `getMeta` and `removeMeta` are not modelled. The model states only that the other operations leave it untouched.
- Encrypted backup and restore, the auto-backup timer, CSV export, rendering (dashboard cards, tables, charts, toasts), navigation and the service worker are not modelled.
- The sample generators' behaviour with no supplier or no customer is excluded by a precondition. There the source indexes the empty list with `index % 0`, which is NaN, reads `undefined` and throws a TypeError on its `.id`.
- Utils.GroupBy: JavaScript object keys are not modelled. The source turns a missing key into the string "undefined" or "null", lists integer-like keys first in `Object.entries`, and throws on keys such as "constructor" that hit `Object.prototype`.
- Reports.SortByTotal: the order of rows with equal totals is not stated.
- Store names are a datatype of the nine known stores, so a snapshot field with any other name is ignored, as the source ignores it.
- Seed.SamplePurchases: paid and balance are exact fractions 0.6 and 0.35 of quantity times cost, so paid plus balance equals the total exactly, not only up to floating rounding.
- Store.Database.ImportSnapshot: the clear-and-put of each store is one step per store, and the interleaving of the IndexedDB transaction is not modelled. A sku clash aborts the transaction and changes nothing. An element that is not a record makes its `put` throw a DataError; that ends the loop, and the transaction commits what was issued before it.
- Store.Database.ImportSnapshot: an object that carries an `id` but is not one of the modelled record shapes is treated as a non-record, so the model halts where the source would store it.
- SelfTests.RunInBrowserTests: the results are returned, not written to the dashboard and console.

## Findings

| source | as written | input that shows it | evidently intended | confidence | as-written member | corrected member |
|---|---|---|---|---|---|---|
| utils.js:124 | `compressToBase64` appends the marker after the whole header `data:<mime>;base64`, making it the third `;` field, but `decompressFromBase64` looks for it in the second field (utils.js:130-133) | the data URL of a file holding "AAA": it is compressed to the header followed by ";RLE1" and the bytes [65, 3], and decompressing returns those bytes, not "AAA" | decompressing a compressed attachment gives back the original data URL | not executed | Rle.WrappersDoNotRoundTrip | Rle.FixedWrappersRoundTrip |
| app.js:927 | the P&L self-test compares revenue less expenses with net income, which also subtracts COGS | a state whose only stock movement is the sale of one unit at cost 10: COGS is 10, so the check fails though the report is right | the check tests net income = revenue − COGS − expenses, which holds on every state | not executed | SelfTests.PnlCheckFailsAfterOneSale | SelfTests.PnlCheckHolds |
| reports.js:18-22 | cash flow adds received, paid and expense amounts and also the cash ledger rows that the same records post (app.js:745, 754, 795) | a sale that received 70: inflows rise by 140 | each cash movement counts once, as in the cash ledger | not executed | Reports.CashFlowCountsSaleTwice | Reports.LedgerCountsSaleOnce |
