/**
 * The four checks `runInBrowserTests` runs against the live state, and
 * what each of them actually decides. Rendering the results into the
 * dashboard and the console is not modelled.
 */
module SelfTests {
  import opened Wrappers
  import opened Utils
  import opened Records
  import opened Postings
  import opened Stock
  import opened Reports
  import opened Seed

  /** One line of the self-test report. */
  datatype TestResult = TestResult(name: string, passed: bool)

  /** The first check: every item's available stock is at least zero. */
  predicate StockIntegrity(d: AppData) {
    forall i | 0 <= i < |d.items| :: StockOf(d.stockMovements, d.items[i].id) >= 0.0
  }

  /** The second check: the receivable bucket totals, summed in their key order, are within a cent of the sales balances. */
  predicate ReceivablesMatch(d: AppData, daysSince: Date -> int) {
    var buckets := CalculateReceivableAging(d, daysSince);
    var receivableSum := 0.0 + buckets.current + buckets.days1To30 + buckets.days31To60 + buckets.days61To90 + buckets.over90;
    Abs(receivableSum - Sum(d.sales, TransactionBalance)) < 0.01
  }

  /** The third check as written: revenue less expenses is within a cent of net income. */
  predicate PnlCheckAsWritten(d: AppData) {
    var p := CalculateProfitAndLoss(d);
    Abs((p.revenue - p.expenses) - p.netIncome) < 0.01
  }

  /** The fourth check: ledger debits and credits are within a cent of each other. */
  predicate LedgerBalanced(d: AppData) {
    var b := CalculateLedgerBalance(d);
    Abs(b.debits - b.credits) < 0.01
  }

  /** The four results in the order they are reported, the third named after the profit-and-loss identity it checks. */
  function Report(stock: bool, receivables: bool, pnl: bool, ledger: bool, pnlName: string): (results: seq<TestResult>)
    ensures |results| == 4
    ensures results[0].passed == stock && results[1].passed == receivables
    ensures results[2].passed == pnl && results[3].passed == ledger
  {
    [ TestResult("Non-negative stock levels", stock),
      TestResult("Receivable aging totals match balances", receivables),
      TestResult(pnlName, pnl),
      TestResult("Ledger debits equal credits", ledger) ]
  }

  /** `runInBrowserTests()`: the four results, in the order they are reported. */
  function RunInBrowserTests(d: AppData, daysSince: Date -> int): (results: seq<TestResult>)
    ensures |results| == 4
    ensures results[0].passed <==> forall i :: 0 <= i < |d.items| ==> StockOf(d.stockMovements, d.items[i].id) >= 0.0
    ensures results[1].passed
    ensures results[2].passed <==> Abs(Cogs(d.stockMovements)) < 0.01
    ensures results[3].passed <==> CalculateLedgerBalance(d).balanced
  {
    ReceivablesAlwaysMatch(d, daysSince);
    PnlCheckTestsCogs(d);
    LedgerCheckIsBalance(d);
    Report(StockIntegrity(d), ReceivablesMatch(d, daysSince), PnlCheckAsWritten(d), LedgerBalanced(d), "Profit & Loss net equals revenue - expenses")
  }

  /** The ledger check is the ledger report's own `balanced` flag. */
  lemma LedgerCheckIsBalance(d: AppData)
    ensures LedgerBalanced(d) <==> CalculateLedgerBalance(d).balanced
  {
  }

  /** Every sale's balance lands in one aging bucket, so the receivables check cannot fail. */
  lemma ReceivablesAlwaysMatch(d: AppData, daysSince: Date -> int)
    ensures ReceivablesMatch(d, daysSince)
  {
    var buckets := CalculateReceivableAging(d, daysSince);
    assert 0.0 + buckets.current + buckets.days1To30 + buckets.days31To60 + buckets.days61To90 + buckets.over90 == buckets.Total();
  }

  /**
   * The profit-and-loss check as written compares revenue less expenses
   * with a net income that also subtracts COGS, so it passes exactly when
   * COGS is below a cent.
   */
  lemma PnlCheckTestsCogs(d: AppData)
    ensures PnlCheckAsWritten(d) <==> Abs(Cogs(d.stockMovements)) < 0.01
  {
    var p := CalculateProfitAndLoss(d);
    assert (p.revenue - p.expenses) - p.netIncome == p.cogs;
  }

  /** One sale at a cost of 10 makes the check as written fail. */
  lemma PnlCheckFailsAfterOneSale(d: AppData)
    requires d.stockMovements == [Movement("m-1", "item-1", SaleMovement, -1.0, 10.0, "d0", Some("s-1"))]
    ensures !PnlCheckAsWritten(d)
  {
    var ms := d.stockMovements;
    CogsCountsOnlySales(ms);
    assert Filter(ms, IsSaleMovement) == ms;
    SumSingleton(ms[0], MovementCost);
    PnlCheckTestsCogs(d);
  }

  /** The identity the check's name states: net income is revenue less COGS less expenses. */
  predicate PnlCheck(d: AppData) {
    var p := CalculateProfitAndLoss(d);
    Abs((p.revenue - p.cogs - p.expenses) - p.netIncome) < 0.01
  }

  /** The intended profit-and-loss check passes on every state, COGS or not. */
  lemma PnlCheckHolds(d: AppData)
    ensures PnlCheck(d)
    ensures CalculateProfitAndLoss(d).grossProfit - CalculateProfitAndLoss(d).expenses == CalculateProfitAndLoss(d).netIncome
  {
  }

  /** The self-tests with the profit-and-loss check stated as intended. */
  function RunInBrowserTestsFixed(d: AppData, daysSince: Date -> int): (results: seq<TestResult>)
    ensures |results| == 4
    ensures results[0].passed <==> forall i :: 0 <= i < |d.items| ==> StockOf(d.stockMovements, d.items[i].id) >= 0.0
    ensures results[1].passed && results[2].passed
    ensures results[3].passed <==> CalculateLedgerBalance(d).balanced
  {
    ReceivablesAlwaysMatch(d, daysSince);
    PnlCheckHolds(d);
    LedgerCheckIsBalance(d);
    Report(StockIntegrity(d), ReceivablesMatch(d, daysSince), PnlCheck(d), LedgerBalanced(d), "Profit & Loss net equals revenue - cogs - expenses")
  }

  /** Posting a purchase or sale whose payment is within its total keeps the ledger check passing. */
  lemma LedgerCheckKeptByPosting(d: AppData, r: Transaction, kind: TransactionType, ids: seq<Id>)
    requires |ids| >= 3
    requires 0.0 <= Payment(r, kind) <= r.total && r.balance == r.total - Payment(r, kind)
    requires LedgerBalanced(d)
    ensures LedgerBalanced(d.(ledgerEntries := d.ledgerEntries + TransactionPostings(r, kind, ids)))
  {
    PostingKeepsBalance(d.ledgerEntries, r, kind, ids);
  }

  /** Posting an expense keeps the ledger check passing. */
  lemma LedgerCheckKeptByExpense(d: AppData, r: Expense, ids: seq<Id>)
    requires |ids| >= 2
    requires LedgerBalanced(d)
    ensures LedgerBalanced(d.(ledgerEntries := d.ledgerEntries + ExpensePostings(r, ids)))
  {
    ExpensePostingKeepsBalance(d.ledgerEntries, r, ids);
  }

  /**
   * On a freshly seeded database the stock check fails: the sample data
   * leaves item-8 below zero.
   */
  lemma FreshSeedFailsStockCheck(d: AppData, today: Date, purchaseIds: seq<Id>, saleIds: seq<Id>,
                                 movementIds: seq<Id>, dateAt: int -> Date, daysSince: Date -> int)
    requires |Suppliers(d.parties)| > 0 && |Customers(d.parties)| > 0
    requires |purchaseIds| >= 5 && |saleIds| >= 5 && |movementIds| >= 20
    requires d.items == SampleItems(today)
    requires d.stockMovements == SeedMovements(d.items, SamplePurchases(d.items, d.parties, purchaseIds, dateAt),
                                               SampleSales(d.items, d.parties, saleIds, dateAt), movementIds)
    ensures !RunInBrowserTests(d, daysSince)[0].passed
  {
    SeedLeavesItem8Negative(today, d.parties, purchaseIds, saleIds, movementIds, dateAt);
    assert d.items[7].id == "item-8";
    StockCheckFailsOnNegativeItem(d, daysSince, 7);
  }

  /** A single item below zero fails the stock check. */
  lemma StockCheckFailsOnNegativeItem(d: AppData, daysSince: Date -> int, i: nat)
    requires i < |d.items| && StockOf(d.stockMovements, d.items[i].id) < 0.0
    ensures !RunInBrowserTests(d, daysSince)[0].passed
  {
  }
}
