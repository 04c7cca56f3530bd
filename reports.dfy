/**
 * The `Reports` module: pure aggregations over a snapshot of the state
 * (profit and loss, cost of goods sold, cash flow, inventory valuation,
 * sales and expense analysis, tax, dashboard figures, aging, ledger
 * balance).
 */
module Reports {
  import opened Wrappers
  import opened Utils
  import opened Records
  import opened Postings
  import opened Stock

  // ---------------------------------------------------------------------
  // Selectors
  // ---------------------------------------------------------------------

  function TransactionTotal(t: Transaction): real { t.total }
  function TransactionBalance(t: Transaction): real { t.balance }
  function TransactionQuantity(t: Transaction): real { t.quantity }
  function ExpenseAmount(e: Expense): real { e.amount }

  /** A sale's received amount, a missing one counting as 0. */
  function Received(t: Transaction): real { t.received.GetOr(0.0) }

  /** A purchase's paid amount, a missing one counting as 0. */
  function Paid(t: Transaction): real { t.paid.GetOr(0.0) }

  /** The sum of `s[0] + rest` splits off its head. */
  lemma SumCons<T>(x: T, rest: seq<T>, f: T -> real)
    ensures Sum([x] + rest, f) == f(x) + Sum(rest, f)
  {
    SumAppend([x], rest, f);
    SumSingleton(x, f);
  }

  // ---------------------------------------------------------------------
  // Cost of goods sold and profit and loss
  // ---------------------------------------------------------------------

  predicate NotOpening(m: Movement) { m.kind != OpeningMovement }
  predicate IsSaleMovement(m: Movement) { m.kind == SaleMovement }
  function MovementCost(m: Movement): real { Abs(m.quantity) * m.cost }

  /** A movement's share of the cost of goods sold: its absolute quantity at its cost for a sale, nothing otherwise. */
  function SaleMovementCost(m: Movement): real { if m.kind == SaleMovement then Abs(m.quantity) * m.cost else 0.0 }

  /** `calculateCOGS(state)`: drop opening movements, keep sale movements, add |quantity| times cost. */
  function Cogs(ms: seq<Movement>): real {
    Sum(Filter(Filter(ms, NotOpening), IsSaleMovement), MovementCost)
  }

  /** Only sale movements count towards COGS; opening and purchase movements add nothing. */
  lemma CogsCountsOnlySales(ms: seq<Movement>)
    ensures Cogs(ms) == Sum(ms, SaleMovementCost)
  {
    SumFilter(Filter(ms, NotOpening), IsSaleMovement, MovementCost, SaleMovementCost);
    SumFilter(ms, NotOpening, SaleMovementCost, SaleMovementCost);
  }

  /** Movements that are not sales leave COGS unchanged. */
  lemma CogsIgnoresNonSales(ms: seq<Movement>, extra: seq<Movement>)
    requires forall i :: 0 <= i < |extra| ==> extra[i].kind != SaleMovement
    ensures Cogs(ms + extra) == Cogs(ms)
  {
    CogsCountsOnlySales(ms + extra);
    CogsCountsOnlySales(ms);
    SumAppend(ms, extra, SaleMovementCost);
    SumZero(extra, SaleMovementCost);
  }

  /** A sum of zero terms is zero. */
  lemma {:induction false} SumZero<T>(xs: seq<T>, f: T -> real)
    requires forall i :: 0 <= i < |xs| ==> f(xs[i]) == 0.0
    ensures Sum(xs, f) == 0.0
    decreases |xs|
  {
    if |xs| > 0 {
      SumZero(xs[..|xs| - 1], f);
    }
  }

  /** With non-negative costs, COGS is non-negative. */
  lemma CogsNonNegative(ms: seq<Movement>)
    requires forall i :: 0 <= i < |ms| ==> ms[i].cost >= 0.0
    ensures Cogs(ms) >= 0.0
  {
    CogsCountsOnlySales(ms);
    SumMonotone(ms, ZeroCost, SaleMovementCost);
    SumZero(ms, ZeroCost);
  }

  function ZeroCost(m: Movement): real { 0.0 }

  /** The fields of `calculateProfitAndLoss`'s result. */
  datatype ProfitAndLoss = ProfitAndLoss(revenue: real, cogs: real, grossProfit: real, expenses: real, netIncome: real)

  /**
   * `calculateProfitAndLoss(state)`: revenue is the sales' totals, gross
   * profit is revenue less COGS, net income is gross profit less expenses.
   */
  function CalculateProfitAndLoss(d: AppData): (p: ProfitAndLoss)
    ensures p.revenue == Sum(d.sales, TransactionTotal) && p.cogs == Cogs(d.stockMovements)
    ensures p.expenses == Sum(d.expenses, ExpenseAmount)
    ensures p.grossProfit == p.revenue - p.cogs
    ensures p.netIncome == p.revenue - p.cogs - p.expenses
  {
    var revenue := Sum(d.sales, TransactionTotal);
    var cogs := Cogs(d.stockMovements);
    var expenses := Sum(d.expenses, ExpenseAmount);
    ProfitAndLoss(revenue, cogs, revenue - cogs, expenses, revenue - cogs - expenses)
  }

  // ---------------------------------------------------------------------
  // Cash flow
  // ---------------------------------------------------------------------

  /** The fields of `calculateCashFlow`'s result. */
  datatype CashFlow = CashFlow(inflows: real, outflows: real, net: real)

  /**
   * `calculateCashFlow(state)` as written: inflows are the sales' received
   * amounts plus the 'cash' debit entries; outflows are the purchases' paid
   * amounts, the expenses and the 'cash' credit entries.
   */
  function CalculateCashFlow(d: AppData): (c: CashFlow)
    ensures c.inflows == Sum(d.sales, Received) + CashDebits(d.ledgerEntries)
    ensures c.outflows == Sum(d.purchases, Paid) + Sum(d.expenses, ExpenseAmount) + CashCredits(d.ledgerEntries)
    ensures c.net == c.inflows - c.outflows
  {
    var inflows := Sum(d.sales, Received) + CashDebits(d.ledgerEntries);
    var outflows := Sum(d.purchases, Paid) + Sum(d.expenses, ExpenseAmount) + CashCredits(d.ledgerEntries);
    CashFlow(inflows, outflows, inflows - outflows)
  }

  /**
   * The cash flow read once, from the 'cash' account of the ledger, where
   * every payment and receipt is already posted.
   */
  function CashFlowFromLedger(d: AppData): (c: CashFlow)
    ensures c.net == c.inflows - c.outflows
    ensures c.inflows == CashDebits(d.ledgerEntries) && c.outflows == CashCredits(d.ledgerEntries)
  {
    CashFlow(CashDebits(d.ledgerEntries), CashCredits(d.ledgerEntries),
             CashDebits(d.ledgerEntries) - CashCredits(d.ledgerEntries))
  }

  /** The snapshot after a new sale is recorded and posted. */
  function WithSale(d: AppData, r: Transaction, ids: seq<Id>): AppData
    requires |ids| >= 3
  {
    d.(sales := d.sales + [r], ledgerEntries := d.ledgerEntries + TransactionPostings(r, Sale, ids))
  }

  /** The snapshot after a new expense is recorded and posted. */
  function WithExpense(d: AppData, r: Expense, ids: seq<Id>): AppData
    requires |ids| >= 2
  {
    d.(expenses := d.expenses + [r], ledgerEntries := d.ledgerEntries + ExpensePostings(r, ids))
  }

  /** As written, a sale that received `x` in cash raises inflows by `2x`: once from the sale, once from its cash entry. */
  lemma CashFlowCountsSaleTwice(d: AppData, r: Transaction, ids: seq<Id>)
    requires |ids| >= 3 && r.received.Some? && r.received.value > 0.0
    ensures CalculateCashFlow(WithSale(d, r, ids)).inflows == CalculateCashFlow(d).inflows + 2.0 * r.received.value
    ensures CalculateCashFlow(WithSale(d, r, ids)).outflows == CalculateCashFlow(d).outflows
  {
    TotalsAppend(d.ledgerEntries, TransactionPostings(r, Sale, ids));
    TransactionTotals(r, Sale, ids);
    SumAppend(d.sales, [r], Received);
    SumSingleton(r, Received);
  }

  /** As written, an expense of `a` raises outflows by `2a`: once from the expense, once from its cash entry. */
  lemma CashFlowCountsExpenseTwice(d: AppData, r: Expense, ids: seq<Id>)
    requires |ids| >= 2
    ensures CalculateCashFlow(WithExpense(d, r, ids)).outflows == CalculateCashFlow(d).outflows + 2.0 * r.amount
    ensures CalculateCashFlow(WithExpense(d, r, ids)).inflows == CalculateCashFlow(d).inflows
  {
    var d' := WithExpense(d, r, ids);
    ExpenseCashPostings(d.ledgerEntries, r, ids);
    ExpenseAddsItsAmount(d.expenses, r);
    assert d'.sales == d.sales && d'.purchases == d.purchases;
  }

  /** Posting an expense adds its amount to the cash credits and nothing to the cash debits. */
  lemma ExpenseCashPostings(entries: seq<LedgerEntry>, r: Expense, ids: seq<Id>)
    requires |ids| >= 2
    ensures CashCredits(entries + ExpensePostings(r, ids)) == CashCredits(entries) + r.amount
    ensures CashDebits(entries + ExpensePostings(r, ids)) == CashDebits(entries)
  {
    TotalsAppend(entries, ExpensePostings(r, ids));
    ExpenseTotals(r, ids);
  }

  /** Recording an expense adds its amount to the expense total. */
  lemma ExpenseAddsItsAmount(expenses: seq<Expense>, r: Expense)
    ensures Sum(expenses + [r], ExpenseAmount) == Sum(expenses, ExpenseAmount) + r.amount
  {
    SumAppend(expenses, [r], ExpenseAmount);
    SumSingleton(r, ExpenseAmount);
  }

  /** Read from the ledger alone, a sale moves the net cash by what it received. */
  lemma LedgerCountsSaleOnce(d: AppData, s: Transaction, ids: seq<Id>)
    requires |ids| >= 3 && s.received.Some? && s.received.value > 0.0
    ensures CashFlowFromLedger(WithSale(d, s, ids)).net == CashFlowFromLedger(d).net + s.received.value
  {
    TotalsAppend(d.ledgerEntries, TransactionPostings(s, Sale, ids));
    TransactionTotals(s, Sale, ids);
  }

  /** Read from the ledger alone, an expense moves the net cash by minus its amount. */
  lemma LedgerCountsExpenseOnce(d: AppData, e: Expense, ids: seq<Id>)
    requires |ids| >= 2
    ensures CashFlowFromLedger(WithExpense(d, e, ids)).net == CashFlowFromLedger(d).net - e.amount
  {
    TotalsAppend(d.ledgerEntries, ExpensePostings(e, ids));
    ExpenseTotals(e, ids);
  }

  // ---------------------------------------------------------------------
  // Inventory valuation
  // ---------------------------------------------------------------------

  /** One row of the valuation: the item, its quantity on hand and its value at cost. */
  datatype Valuation = Valuation(item: Item, quantity: real, value: real)

  function ValuationValue(v: Valuation): real { v.value }

  /** The fields of `calculateInventoryValuation`'s result. */
  datatype InventoryValuation = InventoryValuation(valuation: seq<Valuation>, totalValue: real)

  /**
   * `calculateInventoryValuation(state)`: one row per item, in item order,
   * whose quantity is the item's available stock and whose value is that
   * quantity at the item's cost; the total is the sum of the values.
   */
  function CalculateInventoryValuation(d: AppData): (v: InventoryValuation)
    ensures |v.valuation| == |d.items|
    ensures forall i :: 0 <= i < |d.items| ==>
              && v.valuation[i].item == d.items[i]
              && v.valuation[i].quantity == StockOf(d.stockMovements, d.items[i].id)
              && v.valuation[i].value == StockOf(d.stockMovements, d.items[i].id) * d.items[i].cost
    ensures v.totalValue == Sum(v.valuation, ValuationValue)
  {
    var rows := seq(|d.items|, i requires 0 <= i < |d.items| =>
      Valuation(d.items[i], StockOf(d.stockMovements, d.items[i].id),
                StockOf(d.stockMovements, d.items[i].id) * d.items[i].cost));
    InventoryValuation(rows, Sum(rows, ValuationValue))
  }

  /** With stock and costs non-negative, no row and no total is negative. */
  lemma ValuationNonNegative(d: AppData)
    requires forall i :: 0 <= i < |d.items| ==> d.items[i].cost >= 0.0 && StockOf(d.stockMovements, d.items[i].id) >= 0.0
    ensures CalculateInventoryValuation(d).totalValue >= 0.0
  {
    var v := CalculateInventoryValuation(d);
    SumZero(v.valuation, ZeroValue);
    SumMonotone(v.valuation, ZeroValue, ValuationValue);
  }

  function ZeroValue(v: Valuation): real { 0.0 }

  // ---------------------------------------------------------------------
  // Ranking by total, largest first
  // ---------------------------------------------------------------------

  /** Non-increasing in `total`. */
  ghost predicate SortedByTotal<T>(xs: seq<T>, total: T -> real) {
    forall i, j :: 0 <= i < j < |xs| ==> total(xs[i]) >= total(xs[j])
  }

  /** Puts `x` after every element of the sorted `s` whose total is at least its own. */
  function InsertByTotal<T>(x: T, s: seq<T>, total: T -> real): (r: seq<T>)
    ensures |r| == |s| + 1
    decreases |s|
  {
    if |s| == 0 then [x]
    else if total(s[0]) >= total(x) then [s[0]] + InsertByTotal(x, s[1..], total)
    else [x] + s
  }

  /** Inserting adds exactly `x`. */
  lemma {:induction false} InsertPermutes<T>(x: T, s: seq<T>, total: T -> real)
    ensures multiset(InsertByTotal(x, s, total)) == multiset(s) + multiset{x}
    decreases |s|
  {
    if |s| > 0 {
      assert s == [s[0]] + s[1..];
      if total(s[0]) >= total(x) {
        InsertPermutes(x, s[1..], total);
      }
    }
  }

  /** Every element of an insertion comes from `s` or is `x`, so a bound on both bounds it. */
  lemma InsertBounded<T>(x: T, s: seq<T>, total: T -> real, bound: real)
    requires total(x) <= bound
    requires forall k :: 0 <= k < |s| ==> total(s[k]) <= bound
    ensures forall j :: 0 <= j < |InsertByTotal(x, s, total)| ==> total(InsertByTotal(x, s, total)[j]) <= bound
  {
    var r := InsertByTotal(x, s, total);
    InsertPermutes(x, s, total);
    forall j | 0 <= j < |r| ensures total(r[j]) <= bound {
      assert r[j] in multiset(r);
      if r[j] != x {
        assert r[j] in multiset(s);
        var k :| 0 <= k < |s| && s[k] == r[j];
      }
    }
  }

  /** Inserting keeps a sorted list sorted. */
  lemma {:induction false} InsertKeepsSorted<T>(x: T, s: seq<T>, total: T -> real)
    requires SortedByTotal(s, total)
    ensures SortedByTotal(InsertByTotal(x, s, total), total)
    decreases |s|
  {
    if |s| > 0 {
      var r := InsertByTotal(x, s, total);
      if total(s[0]) >= total(x) {
        var rest := InsertByTotal(x, s[1..], total);
        InsertKeepsSorted(x, s[1..], total);
        InsertBounded(x, s[1..], total, total(s[0]));
        assert r == [s[0]] + rest;
        forall i, j | 0 <= i < j < |r| ensures total(r[i]) >= total(r[j]) {
          assert r[j] == rest[j - 1];
          if i > 0 {
            assert r[i] == rest[i - 1];
          }
        }
      } else {
        assert r == [x] + s;
        forall i, j | 0 <= i < j < |r| ensures total(r[i]) >= total(r[j]) {
          assert r[j] == s[j - 1];
          if i > 0 {
            assert r[i] == s[i - 1];
          }
        }
      }
    }
  }

  /**
   * The sort by non-increasing total: the result is sorted and is a
   * permutation of the input. (Insertion places an element after the
   * equal totals already placed, as `Array.prototype.sort` keeps ties in
   * input order; that tie order is not part of the contract.)
   */
  function SortByTotal<T>(xs: seq<T>, total: T -> real): (r: seq<T>)
    ensures |r| == |xs|
    ensures SortedByTotal(r, total)
    ensures multiset(r) == multiset(xs)
    decreases |xs|
  {
    if |xs| == 0 then []
    else
      var init := xs[..|xs| - 1];
      var sorted := SortByTotal(init, total);
      InsertPermutes(xs[|xs| - 1], sorted, total);
      InsertKeepsSorted(xs[|xs| - 1], sorted, total);
      assert xs == init + [xs[|xs| - 1]];
      assert multiset(xs) == multiset(init) + multiset{xs[|xs| - 1]};
      InsertByTotal(xs[|xs| - 1], sorted, total)
  }

  /** Sorting keeps the sum of any selector. */
  lemma {:induction false} SortKeepsSum<T>(xs: seq<T>, total: T -> real, f: T -> real)
    ensures Sum(SortByTotal(xs, total), f) == Sum(xs, f)
    decreases |xs|
  {
    if |xs| > 0 {
      var init := xs[..|xs| - 1];
      SortKeepsSum(init, total, f);
      InsertKeepsSum(xs[|xs| - 1], SortByTotal(init, total), total, f);
    }
  }

  lemma {:induction false} InsertKeepsSum<T>(x: T, s: seq<T>, total: T -> real, f: T -> real)
    ensures Sum(InsertByTotal(x, s, total), f) == Sum(s, f) + f(x)
    decreases |s|
  {
    if |s| == 0 {
      SumSingleton(x, f);
    } else if total(s[0]) >= total(x) {
      InsertKeepsSum(x, s[1..], total, f);
      SumCons(s[0], InsertByTotal(x, s[1..], total), f);
      assert s == [s[0]] + s[1..];
      SumCons(s[0], s[1..], f);
    } else {
      SumCons(x, s, f);
    }
  }

  /** Every element of the sorted list satisfies what every input element satisfies. */
  lemma SortKeeps<T>(xs: seq<T>, total: T -> real, p: T -> bool)
    requires forall i :: 0 <= i < |xs| ==> p(xs[i])
    ensures forall i :: 0 <= i < |SortByTotal(xs, total)| ==> p(SortByTotal(xs, total)[i])
  {
    var r := SortByTotal(xs, total);
    forall i | 0 <= i < |r| ensures p(r[i]) {
      assert r[i] in multiset(xs);
      var j :| 0 <= j < |xs| && xs[j] == r[i];
    }
  }

  // ---------------------------------------------------------------------
  // Sales and expense analysis
  // ---------------------------------------------------------------------

  /** A ranked row: a display name, a quantity (0 where the report has none) and a total. */
  datatype Ranked = Ranked(name: string, quantity: real, total: real)

  function RankedTotal(r: Ranked): real { r.total }

  /** The key `groupBy` files a sale under by customer: the party id as an object key, `null` becoming "null". */
  function CustomerKey(t: Transaction): string { t.partyId.GetOr("null") }

  /** The key `groupBy` files a sale under by item. */
  function ItemKeyOf(t: Transaction): string { t.itemId }

  /** The customer's name, or "Unknown" when no party has the id or its name is empty. */
  function CustomerName(parties: seq<Party>, partyId: Id): string {
    match Find(parties, partyId, PartyKey)
    case Some(p) => if p.name != "" then p.name else "Unknown"
    case None => "Unknown"
  }

  /** The item's name, or "Unknown" when no item has the id or its name is empty. */
  function ItemName(items: seq<Item>, itemId: Id): string {
    match Find(items, itemId, ItemKey)
    case Some(i) => if i.name != "" then i.name else "Unknown"
    case None => "Unknown"
  }

  /** The rows of the sales analysis, before ranking. */
  function CustomerRows(groups: seq<(string, seq<Transaction>)>, parties: seq<Party>): (rows: seq<Ranked>)
    ensures |rows| == |groups|
    ensures forall i :: 0 <= i < |groups| ==> rows[i].total == Sum(groups[i].1, TransactionTotal)
  {
    seq(|groups|, i requires 0 <= i < |groups| =>
      Ranked(CustomerName(parties, groups[i].0), 0.0, Sum(groups[i].1, TransactionTotal)))
  }

  function ItemRows(groups: seq<(string, seq<Transaction>)>, items: seq<Item>): (rows: seq<Ranked>)
    ensures |rows| == |groups|
    ensures forall i :: 0 <= i < |groups| ==>
              rows[i].quantity == Sum(groups[i].1, TransactionQuantity) && rows[i].total == Sum(groups[i].1, TransactionTotal)
  {
    seq(|groups|, i requires 0 <= i < |groups| =>
      Ranked(ItemName(items, groups[i].0), Sum(groups[i].1, TransactionQuantity), Sum(groups[i].1, TransactionTotal)))
  }

  /** The row of the customer `k`: its name and the total of the sales filed under it. */
  function CustomerRow(d: AppData, k: string): Ranked {
    Ranked(CustomerName(d.parties, k), 0.0, Sum(WithKey(d.sales, CustomerKey, k), TransactionTotal))
  }

  /** The row of the item `k`: its name and the quantity and total of the sales filed under it. */
  function ItemRow(d: AppData, k: string): Ranked {
    Ranked(ItemName(d.items, k), Sum(WithKey(d.sales, ItemKeyOf, k), TransactionQuantity),
           Sum(WithKey(d.sales, ItemKeyOf, k), TransactionTotal))
  }

  /** One customer row per key, in key order. */
  function CustomerRowsOf(d: AppData, ks: seq<string>): seq<Ranked> {
    seq(|ks|, i requires 0 <= i < |ks| => CustomerRow(d, ks[i]))
  }

  /** One item row per key, in key order. */
  function ItemRowsOf(d: AppData, ks: seq<string>): seq<Ranked> {
    seq(|ks|, i requires 0 <= i < |ks| => ItemRow(d, ks[i]))
  }

  /** The fields of `calculateSalesAnalysis`'s result. */
  datatype SalesAnalysis = SalesAnalysis(topCustomers: seq<Ranked>, topItems: seq<Ranked>)

  /**
   * `calculateSalesAnalysis(state)`: sales grouped by customer and by item,
   * each list ranked by non-increasing total. Each list is a rearrangement
   * of one row per distinct key (the keys of `groupBy`, which are exactly the
   * keys the sales carry, each once), the row holding the key's name and the
   * sums over the sales filed under it; the rows' totals add up to the
   * sales' totals.
   */
  function CalculateSalesAnalysis(d: AppData): (a: SalesAnalysis)
    ensures SortedByTotal(a.topCustomers, RankedTotal) && SortedByTotal(a.topItems, RankedTotal)
    ensures multiset(a.topCustomers) == multiset(CustomerRowsOf(d, Keys(GroupBy(d.sales, CustomerKey))))
    ensures multiset(a.topItems) == multiset(ItemRowsOf(d, Keys(GroupBy(d.sales, ItemKeyOf))))
    ensures |a.topCustomers| == |GroupBy(d.sales, CustomerKey)| && |a.topItems| == |GroupBy(d.sales, ItemKeyOf)|
    ensures Sum(a.topCustomers, RankedTotal) == Sum(d.sales, TransactionTotal)
    ensures Sum(a.topItems, RankedTotal) == Sum(d.sales, TransactionTotal)
  {
    var byCustomer := GroupBy(d.sales, CustomerKey);
    var byItem := GroupBy(d.sales, ItemKeyOf);
    var customers := CustomerRows(byCustomer, d.parties);
    var items := ItemRows(byItem, d.items);
    CustomerRowsByKey(d);
    ItemRowsByKey(d);
    RowsSum(byCustomer, customers, TransactionTotal, RankedTotal);
    RowsSum(byItem, items, TransactionTotal, RankedTotal);
    GroupByCorrect(d.sales, CustomerKey, TransactionTotal);
    GroupByCorrect(d.sales, ItemKeyOf, TransactionTotal);
    SortKeepsSum(customers, RankedTotal, RankedTotal);
    SortKeepsSum(items, RankedTotal, RankedTotal);
    SalesAnalysis(SortByTotal(customers, RankedTotal), SortByTotal(items, RankedTotal))
  }

  /** The customer rows, before ranking, are the rows of the grouping's keys. */
  lemma CustomerRowsByKey(d: AppData)
    ensures CustomerRows(GroupBy(d.sales, CustomerKey), d.parties) == CustomerRowsOf(d, Keys(GroupBy(d.sales, CustomerKey)))
  {
    var g := GroupBy(d.sales, CustomerKey);
    KeysIndex(g);
    forall i | 0 <= i < |g| ensures CustomerRows(g, d.parties)[i] == CustomerRow(d, Keys(g)[i]) {
      GroupByGroups(d.sales, CustomerKey, i);
    }
  }

  /** The item rows, before ranking, are the rows of the grouping's keys. */
  lemma ItemRowsByKey(d: AppData)
    ensures ItemRows(GroupBy(d.sales, ItemKeyOf), d.items) == ItemRowsOf(d, Keys(GroupBy(d.sales, ItemKeyOf)))
  {
    var g := GroupBy(d.sales, ItemKeyOf);
    KeysIndex(g);
    forall i | 0 <= i < |g| ensures ItemRows(g, d.items)[i] == ItemRow(d, Keys(g)[i]) {
      GroupByGroups(d.sales, ItemKeyOf, i);
    }
  }

  /** Rows holding one group's sum each add up to the sum over all groups. */
  lemma {:induction false} RowsSum<T, K, R>(groups: seq<(K, seq<T>)>, rows: seq<R>, f: T -> real, g: R -> real)
    requires |rows| == |groups|
    requires forall i :: 0 <= i < |groups| ==> g(rows[i]) == Sum(groups[i].1, f)
    ensures Sum(rows, g) == GroupedSum(groups, f)
    decreases |groups|
  {
    if |groups| > 0 {
      RowsSum(groups[1..], rows[1..], f, g);
      assert rows == [rows[0]] + rows[1..];
      SumCons(rows[0], rows[1..], g);
    }
  }

  /** The grouping key of an expense: its category, or "Other" when it has none. */
  function CategoryKey(e: Expense): (k: string)
    ensures e.category.None? || e.category.value == "" ==> k == "Other"
    ensures e.category.Some? && e.category.value != "" ==> k == e.category.value
  {
    match e.category
    case Some(c) => if c != "" then c else "Other"
    case None => "Other"
  }

  predicate IsRecurring(e: Expense) { e.recurring }

  /** One row of the expense analysis. */
  datatype CategoryTotal = CategoryTotal(category: string, total: real, recurring: nat)

  function CategoryTotalOf(c: CategoryTotal): real { c.total }

  function CategoryRows(groups: seq<(string, seq<Expense>)>): (rows: seq<CategoryTotal>)
    ensures |rows| == |groups|
    ensures forall i :: 0 <= i < |groups| ==>
              && rows[i] == CategoryTotal(groups[i].0, Sum(groups[i].1, ExpenseAmount), |Filter(groups[i].1, IsRecurring)|)
  {
    seq(|groups|, i requires 0 <= i < |groups| =>
      CategoryTotal(groups[i].0, Sum(groups[i].1, ExpenseAmount), |Filter(groups[i].1, IsRecurring)|))
  }

  /** The row of the category `k`: the amount and the recurring count of the expenses filed under it. */
  function CategoryRow(expenses: seq<Expense>, k: string): CategoryTotal {
    CategoryTotal(k, Sum(WithKey(expenses, CategoryKey, k), ExpenseAmount),
                  |Filter(WithKey(expenses, CategoryKey, k), IsRecurring)|)
  }

  /** One category row per key, in key order. */
  function CategoryRowsOf(expenses: seq<Expense>, ks: seq<string>): seq<CategoryTotal> {
    seq(|ks|, i requires 0 <= i < |ks| => CategoryRow(expenses, ks[i]))
  }

  /** The category rows, before ranking, are the rows of the grouping's keys. */
  lemma CategoryRowsByKey(expenses: seq<Expense>)
    ensures CategoryRows(GroupBy(expenses, CategoryKey)) == CategoryRowsOf(expenses, Keys(GroupBy(expenses, CategoryKey)))
  {
    var g := GroupBy(expenses, CategoryKey);
    KeysIndex(g);
    forall i | 0 <= i < |g| ensures CategoryRows(g)[i] == CategoryRow(expenses, Keys(g)[i]) {
      GroupByGroups(expenses, CategoryKey, i);
    }
  }

  /**
   * A row's total is the amount of exactly the expenses filed under its
   * category, and its recurring count is how many of them are recurring.
   */
  predicate RowMatches(expenses: seq<Expense>, c: CategoryTotal) {
    && c.total == Sum(WithKey(expenses, CategoryKey, c.category), ExpenseAmount)
    && c.recurring == |Filter(WithKey(expenses, CategoryKey, c.category), IsRecurring)|
  }

  /**
   * `calculateExpenseAnalysis(state)`: one row per category (a missing
   * category filed as 'Other'), ranked by non-increasing total; each row's
   * total is the amount of that category's expenses and its recurring count
   * the number of recurring ones among them, and the rows add up to all
   * expenses.
   */
  function CalculateExpenseAnalysis(d: AppData): (rows: seq<CategoryTotal>)
    ensures SortedByTotal(rows, CategoryTotalOf)
    ensures |rows| == |GroupBy(d.expenses, CategoryKey)|
    ensures Sum(rows, CategoryTotalOf) == Sum(d.expenses, ExpenseAmount)
    ensures forall i :: 0 <= i < |rows| ==> RowMatches(d.expenses, rows[i])
    ensures multiset(rows) == multiset(CategoryRowsOf(d.expenses, Keys(GroupBy(d.expenses, CategoryKey))))
  {
    var groups := GroupBy(d.expenses, CategoryKey);
    var rows := CategoryRows(groups);
    RowsSum(groups, rows, ExpenseAmount, CategoryTotalOf);
    GroupByCorrect(d.expenses, CategoryKey, ExpenseAmount);
    SortKeepsSum(rows, CategoryTotalOf, CategoryTotalOf);
    forall i | 0 <= i < |rows| ensures RowMatches(d.expenses, rows[i]) {
      GroupByGroups(d.expenses, CategoryKey, i);
    }
    SortKeeps(rows, CategoryTotalOf, c => RowMatches(d.expenses, c));
    CategoryRowsByKey(d.expenses);
    SortByTotal(rows, CategoryTotalOf)
  }

  // ---------------------------------------------------------------------
  // Tax and dashboard figures
  // ---------------------------------------------------------------------

  /** The rate `calculateTaxSummary` uses when none is given. */
  const DefaultTaxRate: real := 0.18

  /** The fields of `calculateTaxSummary`'s result. */
  datatype TaxSummary = TaxSummary(rate: real, taxableSales: real, taxablePurchases: real, outputTax: real, inputTax: real, netTax: real)

  /** `calculateTaxSummary(state, rate)`: tax on sales less tax on purchases, at one rate. */
  function CalculateTaxSummary(d: AppData, rate: real): (t: TaxSummary)
    ensures t.rate == rate
    ensures t.taxableSales == Sum(d.sales, TransactionTotal) && t.taxablePurchases == Sum(d.purchases, TransactionTotal)
    ensures t.netTax == (t.taxableSales - t.taxablePurchases) * rate
    ensures t.outputTax == t.taxableSales * rate && t.inputTax == t.taxablePurchases * rate
    ensures t.outputTax - t.inputTax == t.netTax
  {
    var sales := Sum(d.sales, TransactionTotal);
    var purchases := Sum(d.purchases, TransactionTotal);
    TaxSummary(rate, sales, purchases, sales * rate, purchases * rate, sales * rate - purchases * rate)
  }

  /** `calculateTaxSummary(state)` with the rate left out: 18% of sales less 18% of purchases. */
  function CalculateDefaultTaxSummary(d: AppData): (t: TaxSummary)
    ensures t.rate == 0.18
    ensures t.outputTax == Sum(d.sales, TransactionTotal) * 0.18 && t.inputTax == Sum(d.purchases, TransactionTotal) * 0.18
    ensures t.netTax == (Sum(d.sales, TransactionTotal) - Sum(d.purchases, TransactionTotal)) * 0.18
  {
    CalculateTaxSummary(d, DefaultTaxRate)
  }

  /** One dashboard figure. */
  datatype Kpi = Kpi(title: string, value: real)

  /** `calculateDashboardKPIs(state)`: six figures in a fixed order. */
  function CalculateDashboardKPIs(d: AppData): (k: seq<Kpi>)
    ensures |k| == 6
    ensures k[0].title == "Revenue" && k[0].value == Sum(d.sales, TransactionTotal)
    ensures k[1].title == "Net Income" && k[1].value == k[0].value - Cogs(d.stockMovements) - Sum(d.expenses, ExpenseAmount)
    ensures k[2].title == "Cash Position" && k[2].value == CalculateCashFlow(d).inflows - CalculateCashFlow(d).outflows
    ensures k[3].title == "Inventory Value" && k[3].value == CalculateInventoryValuation(d).totalValue
    ensures k[4].title == "Receivables" && k[4].value == Sum(d.sales, TransactionBalance)
    ensures k[5].title == "Payables" && k[5].value == Sum(d.purchases, TransactionBalance)
  {
    var pnl := CalculateProfitAndLoss(d);
    [Kpi("Revenue", pnl.revenue), Kpi("Net Income", pnl.netIncome),
     Kpi("Cash Position", CalculateCashFlow(d).net),
     Kpi("Inventory Value", CalculateInventoryValuation(d).totalValue),
     Kpi("Receivables", Sum(d.sales, TransactionBalance)),
     Kpi("Payables", Sum(d.purchases, TransactionBalance))]
  }

  // ---------------------------------------------------------------------
  // Aging
  // ---------------------------------------------------------------------

  /** The five bucket totals of an aging report. */
  datatype Aging = Aging(current: real, days1To30: real, days31To60: real, days61To90: real, over90: real) {
    function Total(): real { current + days1To30 + days31To60 + days61To90 + over90 }

    /** The total of one bucket, as `buckets[label].total`. */
    function Of(b: Bucket): real {
      match b
      case Current => current
      case Days1To30 => days1To30
      case Days31To60 => days31To60
      case Days61To90 => days61To90
      case Over90Days => over90
    }
  }

  /** `buckets[bucket].total += amount`. */
  function AddToBucket(a: Aging, b: Bucket, amount: real): (r: Aging)
    ensures r.Of(b) == a.Of(b) + amount
    ensures forall c: Bucket :: c != b ==> r.Of(c) == a.Of(c)
  {
    match b
    case Current => a.(current := a.current + amount)
    case Days1To30 => a.(days1To30 := a.days1To30 + amount)
    case Days31To60 => a.(days31To60 := a.days31To60 + amount)
    case Days61To90 => a.(days61To90 := a.days61To90 + amount)
    case Over90Days => a.(over90 := a.over90 + amount)
  }

  /** The aging of a list of sales or purchases: each balance added to the bucket of its due date. */
  function AgingOf(ts: seq<Transaction>, daysSince: Date -> int): Aging
    decreases |ts|
  {
    if |ts| == 0 then Aging(0.0, 0.0, 0.0, 0.0, 0.0)
    else
      var last := ts[|ts| - 1];
      AddToBucket(AgingOf(ts[..|ts| - 1], daysSince), AgingBucket(last.dueDate, daysSince), last.balance)
  }

  /** Each balance lands in exactly one bucket, so the buckets add up to all balances. */
  lemma {:induction false} AgingSumsToBalances(ts: seq<Transaction>, daysSince: Date -> int)
    ensures AgingOf(ts, daysSince).Total() == Sum(ts, TransactionBalance)
    decreases |ts|
  {
    if |ts| > 0 {
      AgingSumsToBalances(ts[..|ts| - 1], daysSince);
    }
  }

  /** Balances without a due date all land in 'Current'. */
  lemma {:induction false} UndatedIsCurrent(ts: seq<Transaction>, daysSince: Date -> int)
    requires forall i :: 0 <= i < |ts| ==> ts[i].dueDate.None?
    ensures AgingOf(ts, daysSince).current == Sum(ts, TransactionBalance)
    ensures AgingOf(ts, daysSince).Total() == AgingOf(ts, daysSince).current
    decreases |ts|
  {
    if |ts| > 0 {
      UndatedIsCurrent(ts[..|ts| - 1], daysSince);
    }
  }

  /** `calculateReceivableAging(state)`. */
  function CalculateReceivableAging(d: AppData, daysSince: Date -> int): (a: Aging)
    ensures a.Total() == Sum(d.sales, TransactionBalance)
  {
    AgingSumsToBalances(d.sales, daysSince);
    AgingOf(d.sales, daysSince)
  }

  /** `calculatePayableAging(state)`. */
  function CalculatePayableAging(d: AppData, daysSince: Date -> int): (a: Aging)
    ensures a.Total() == Sum(d.purchases, TransactionBalance)
  {
    AgingSumsToBalances(d.purchases, daysSince);
    AgingOf(d.purchases, daysSince)
  }

  /** The dashboard's receivables and payables are the totals of the aging reports. */
  lemma KpisMatchAging(d: AppData, daysSince: Date -> int)
    ensures CalculateDashboardKPIs(d)[4].value == CalculateReceivableAging(d, daysSince).Total()
    ensures CalculateDashboardKPIs(d)[5].value == CalculatePayableAging(d, daysSince).Total()
  {
  }

  // ---------------------------------------------------------------------
  // Ledger balance
  // ---------------------------------------------------------------------

  /** The fields of `calculateLedgerBalance`'s result. */
  datatype LedgerBalance = LedgerBalance(debits: real, credits: real, balanced: bool)

  /**
   * `calculateLedgerBalance(state)`: the 'debit' and the 'credit' entries'
   * amounts, balanced when they differ by less than a cent.
   */
  function CalculateLedgerBalance(d: AppData): (b: LedgerBalance)
    ensures b.debits == Debits(d.ledgerEntries) && b.credits == Credits(d.ledgerEntries)
    ensures b.balanced <==> -0.01 < b.debits - b.credits < 0.01
  {
    var debits := Debits(d.ledgerEntries);
    var credits := Credits(d.ledgerEntries);
    LedgerBalance(debits, credits, Abs(debits - credits) < 0.01)
  }

  /** Deposits, withdrawals, transfers and unknown types are neither debits nor credits, so they never affect the balance. */
  lemma OtherTypesIgnored(es: seq<LedgerEntry>, extra: seq<LedgerEntry>)
    requires forall i :: 0 <= i < |extra| ==> extra[i].kind != Debit && extra[i].kind != Credit
    ensures Debits(es + extra) == Debits(es) && Credits(es + extra) == Credits(es)
  {
    TotalsAppend(es, extra);
    FilterNone(extra, IsDebit);
    FilterNone(extra, IsCredit);
  }

  /** Posting a purchase or sale with a payment within its total keeps the difference of debits and credits. */
  lemma PostingKeepsBalance(es: seq<LedgerEntry>, r: Transaction, kind: TransactionType, ids: seq<Id>)
    requires |ids| >= 3
    requires 0.0 <= Payment(r, kind) <= r.total && r.balance == r.total - Payment(r, kind)
    ensures var after := es + TransactionPostings(r, kind, ids);
      Debits(after) - Credits(after) == Debits(es) - Credits(es)
  {
    TotalsAppend(es, TransactionPostings(r, kind, ids));
    TransactionPostingsBalanced(r, kind, ids);
  }

  /** Posting an expense keeps the difference of debits and credits. */
  lemma ExpensePostingKeepsBalance(es: seq<LedgerEntry>, r: Expense, ids: seq<Id>)
    requires |ids| >= 2
    ensures var after := es + ExpensePostings(r, ids);
      Debits(after) - Credits(after) == Debits(es) - Credits(es)
  {
    TotalsAppend(es, ExpensePostings(r, ids));
    ExpenseTotals(r, ids);
  }
}
