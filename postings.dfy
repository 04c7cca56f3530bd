/**
 * The ledger postings the engine derives from a record (the entry lists of
 * `registerLedgerEntries` and `registerExpenseLedger`), the debit/credit
 * totals `calculateLedgerBalance` compares, and the description-based
 * retraction of `removeLedgerEntriesForReference`.
 */
module Postings {
  import opened Wrappers
  import opened Utils
  import opened Records

  /** One entry of a batch before it is stamped with its uuid and date. */
  datatype Line = Line(account: Id, kind: EntryType, amount: real, description: string)

  /** Gives the `i`-th line the `i`-th fresh id and the record's date, in push order. */
  function Stamp(lines: seq<Line>, ids: seq<Id>, date: Date): (es: seq<LedgerEntry>)
    requires |ids| >= |lines|
    ensures |es| == |lines|
    ensures forall i :: 0 <= i < |es| ==>
              es[i] == LedgerEntry(ids[i], lines[i].account, lines[i].kind, lines[i].amount, date,
                                   Some(lines[i].description), None, None)
  {
    seq(|lines|, i requires 0 <= i < |lines| =>
      LedgerEntry(ids[i], lines[i].account, lines[i].kind, lines[i].amount, date,
                  Some(lines[i].description), None, None))
  }

  /** The batch for a purchase: stock in, cash out for what was paid, a payable for the rest. */
  function PurchaseLines(r: Transaction): seq<Line> {
    [Line("inventory", Debit, r.total, "Purchase " + r.id)]
    + (if r.paid.GetOr(0.0) > 0.0 then [Line("cash", Credit, r.paid.GetOr(0.0), "Cash paid " + r.id)] else [])
    + (if r.balance > 0.0 then [Line("accounts_payable", Credit, r.balance, "Payable " + r.id)] else [])
  }

  /** The batch for a sale: a receivable for the balance, income for the total, cash in for what was received. */
  function SaleLines(r: Transaction): seq<Line> {
    [Line("accounts_receivable", Debit, r.balance, "Receivable " + r.id),
     Line("sales_income", Credit, r.total, "Sale " + r.id)]
    + (if r.received.GetOr(0.0) > 0.0 then [Line("cash", Debit, r.received.GetOr(0.0), "Cash received " + r.id)] else [])
  }

  /** The entry posts `amount` as a `kind` on `account`. */
  predicate Posts(e: LedgerEntry, account: Id, kind: EntryType, amount: real) {
    e.accountId == account && e.kind == kind && e.amount == amount
  }

  /** The entries `registerLedgerEntries(record, type)` pushes. */
  function TransactionPostings(r: Transaction, kind: TransactionType, ids: seq<Id>): (es: seq<LedgerEntry>)
    requires |ids| >= 3
    ensures 1 <= |es| <= 3
    ensures forall i :: 0 <= i < |es| ==> es[i].date == r.date && es[i].id == ids[i]
    ensures kind == Purchase ==>
              && |es| == 1 + (if r.paid.GetOr(0.0) > 0.0 then 1 else 0) + (if r.balance > 0.0 then 1 else 0)
              && Posts(es[0], "inventory", Debit, r.total)
              && (r.paid.GetOr(0.0) > 0.0 ==> Posts(es[1], "cash", Credit, r.paid.GetOr(0.0)))
              && (r.balance > 0.0 ==> Posts(es[|es| - 1], "accounts_payable", Credit, r.balance))
    ensures kind == Sale ==>
              && |es| == 2 + (if r.received.GetOr(0.0) > 0.0 then 1 else 0)
              && Posts(es[0], "accounts_receivable", Debit, r.balance)
              && Posts(es[1], "sales_income", Credit, r.total)
              && (r.received.GetOr(0.0) > 0.0 ==> Posts(es[2], "cash", Debit, r.received.GetOr(0.0)))
  {
    Stamp(if kind == Purchase then PurchaseLines(r) else SaleLines(r), ids, r.date)
  }

  /** The two entries `registerExpenseLedger(record)` pushes: the category debit and the cash credit. */
  function ExpensePostings(r: Expense, ids: seq<Id>): (es: seq<LedgerEntry>)
    requires |ids| >= 2
    ensures |es| == 2
    ensures es[0].accountId == "expense:" + r.category.GetOr("null") && es[0].kind == Debit
    ensures es[1].accountId == "cash" && es[1].kind == Credit
    ensures es[0].amount == es[1].amount == r.amount
    ensures es[0].description == es[1].description == Some("Expense " + r.id)
  {
    Stamp([Line("expense:" + r.category.GetOr("null"), Debit, r.amount, "Expense " + r.id),
           Line("cash", Credit, r.amount, "Expense " + r.id)], ids, r.date)
  }

  // ---------------------------------------------------------------------
  // Debit and credit totals
  // ---------------------------------------------------------------------

  function EntryAmount(e: LedgerEntry): real { e.amount }
  predicate IsDebit(e: LedgerEntry) { e.kind == Debit }
  predicate IsCredit(e: LedgerEntry) { e.kind == Credit }
  predicate IsCashDebit(e: LedgerEntry) { e.accountId == "cash" && e.kind == Debit }
  predicate IsCashCredit(e: LedgerEntry) { e.accountId == "cash" && e.kind == Credit }

  /** Σ amount over entries of type 'debit'. */
  function Debits(es: seq<LedgerEntry>): real { Sum(Filter(es, IsDebit), EntryAmount) }

  /** Σ amount over entries of type 'credit'. */
  function Credits(es: seq<LedgerEntry>): real { Sum(Filter(es, IsCredit), EntryAmount) }

  /** Σ amount over 'debit' entries of the 'cash' account. */
  function CashDebits(es: seq<LedgerEntry>): real { Sum(Filter(es, IsCashDebit), EntryAmount) }

  /** Σ amount over 'credit' entries of the 'cash' account. */
  function CashCredits(es: seq<LedgerEntry>): real { Sum(Filter(es, IsCashCredit), EntryAmount) }

  /** All four totals add up over concatenation, so batches can be checked one by one. */
  lemma TotalsAppend(a: seq<LedgerEntry>, b: seq<LedgerEntry>)
    ensures Debits(a + b) == Debits(a) + Debits(b)
    ensures Credits(a + b) == Credits(a) + Credits(b)
    ensures CashDebits(a + b) == CashDebits(a) + CashDebits(b)
    ensures CashCredits(a + b) == CashCredits(a) + CashCredits(b)
  {
    FilterAppend(a, b, IsDebit);
    FilterAppend(a, b, IsCredit);
    FilterAppend(a, b, IsCashDebit);
    FilterAppend(a, b, IsCashCredit);
    SumAppend(Filter(a, IsDebit), Filter(b, IsDebit), EntryAmount);
    SumAppend(Filter(a, IsCredit), Filter(b, IsCredit), EntryAmount);
    SumAppend(Filter(a, IsCashDebit), Filter(b, IsCashDebit), EntryAmount);
    SumAppend(Filter(a, IsCashCredit), Filter(b, IsCashCredit), EntryAmount);
  }

  function DebitAmount(e: LedgerEntry): real { if IsDebit(e) then e.amount else 0.0 }
  function CreditAmount(e: LedgerEntry): real { if IsCredit(e) then e.amount else 0.0 }
  function CashDebitAmount(e: LedgerEntry): real { if IsCashDebit(e) then e.amount else 0.0 }
  function CashCreditAmount(e: LedgerEntry): real { if IsCashCredit(e) then e.amount else 0.0 }

  function LineDebit(l: Line): real { if l.kind == Debit then l.amount else 0.0 }
  function LineCredit(l: Line): real { if l.kind == Credit then l.amount else 0.0 }
  function LineCashDebit(l: Line): real { if l.account == "cash" && l.kind == Debit then l.amount else 0.0 }
  function LineCashCredit(l: Line): real { if l.account == "cash" && l.kind == Credit then l.amount else 0.0 }

  /** Stamping keeps accounts, amounts and types, so the totals of a batch are those of its lines. */
  lemma StampTotals(lines: seq<Line>, ids: seq<Id>, date: Date)
    requires |ids| >= |lines|
    ensures Debits(Stamp(lines, ids, date)) == Sum(lines, LineDebit)
    ensures Credits(Stamp(lines, ids, date)) == Sum(lines, LineCredit)
    ensures CashDebits(Stamp(lines, ids, date)) == Sum(lines, LineCashDebit)
    ensures CashCredits(Stamp(lines, ids, date)) == Sum(lines, LineCashCredit)
  {
    StampDebits(lines, ids, date);
    StampCredits(lines, ids, date);
    StampCashDebits(lines, ids, date);
    StampCashCredits(lines, ids, date);
  }

  lemma StampDebits(lines: seq<Line>, ids: seq<Id>, date: Date)
    requires |ids| >= |lines|
    ensures Debits(Stamp(lines, ids, date)) == Sum(lines, LineDebit)
  {
    var es := Stamp(lines, ids, date);
    SumFilter(es, IsDebit, EntryAmount, DebitAmount);
    SumPointwise(es, DebitAmount, lines, LineDebit);
  }

  lemma StampCredits(lines: seq<Line>, ids: seq<Id>, date: Date)
    requires |ids| >= |lines|
    ensures Credits(Stamp(lines, ids, date)) == Sum(lines, LineCredit)
  {
    var es := Stamp(lines, ids, date);
    SumFilter(es, IsCredit, EntryAmount, CreditAmount);
    SumPointwise(es, CreditAmount, lines, LineCredit);
  }

  lemma StampCashDebits(lines: seq<Line>, ids: seq<Id>, date: Date)
    requires |ids| >= |lines|
    ensures CashDebits(Stamp(lines, ids, date)) == Sum(lines, LineCashDebit)
  {
    var es := Stamp(lines, ids, date);
    SumFilter(es, IsCashDebit, EntryAmount, CashDebitAmount);
    SumPointwise(es, CashDebitAmount, lines, LineCashDebit);
  }

  lemma StampCashCredits(lines: seq<Line>, ids: seq<Id>, date: Date)
    requires |ids| >= |lines|
    ensures CashCredits(Stamp(lines, ids, date)) == Sum(lines, LineCashCredit)
  {
    var es := Stamp(lines, ids, date);
    SumFilter(es, IsCashCredit, EntryAmount, CashCreditAmount);
    SumPointwise(es, CashCreditAmount, lines, LineCashCredit);
  }

  /** The sum over a batch made of one line and two optional lines. */
  lemma SumBatch(a: Line, b: seq<Line>, c: seq<Line>, f: Line -> real)
    requires |b| <= 1 && |c| <= 1
    ensures Sum([a] + b + c, f) == f(a) + (if |b| == 1 then f(b[0]) else 0.0) + (if |c| == 1 then f(c[0]) else 0.0)
  {
    SumAppend([a] + b, c, f);
    SumAppend([a], b, f);
    SumSingleton(a, f);
    if |b| == 1 {
      assert b == [b[0]];
      SumSingleton(b[0], f);
    }
    if |c| == 1 {
      assert c == [c[0]];
      SumSingleton(c[0], f);
    }
  }

  /** The totals of a purchase's lines. */
  lemma PurchaseLineTotals(r: Transaction)
    ensures var paid := r.paid.GetOr(0.0);
      && Sum(PurchaseLines(r), LineDebit) == r.total
      && Sum(PurchaseLines(r), LineCredit) == (if paid > 0.0 then paid else 0.0) + (if r.balance > 0.0 then r.balance else 0.0)
      && Sum(PurchaseLines(r), LineCashDebit) == 0.0
      && Sum(PurchaseLines(r), LineCashCredit) == (if paid > 0.0 then paid else 0.0)
  {
    var paid := r.paid.GetOr(0.0);
    var a := Line("inventory", Debit, r.total, "Purchase " + r.id);
    var b := if paid > 0.0 then [Line("cash", Credit, paid, "Cash paid " + r.id)] else [];
    var c := if r.balance > 0.0 then [Line("accounts_payable", Credit, r.balance, "Payable " + r.id)] else [];
    assert PurchaseLines(r) == [a] + b + c;
    assert a.account != "cash" by {
      assert a.account[0] == 'i';
    }
    assert |c| == 1 ==> c[0].account != "cash" by {
      if |c| == 1 {
        assert c[0].account[0] == 'a';
      }
    }
    SumBatch(a, b, c, LineDebit);
    SumBatch(a, b, c, LineCredit);
    SumBatch(a, b, c, LineCashDebit);
    SumBatch(a, b, c, LineCashCredit);
  }

  /** The totals of a sale's lines. */
  lemma SaleLineTotals(r: Transaction)
    ensures var received := r.received.GetOr(0.0);
      && Sum(SaleLines(r), LineDebit) == r.balance + (if received > 0.0 then received else 0.0)
      && Sum(SaleLines(r), LineCredit) == r.total
      && Sum(SaleLines(r), LineCashDebit) == (if received > 0.0 then received else 0.0)
      && Sum(SaleLines(r), LineCashCredit) == 0.0
  {
    var received := r.received.GetOr(0.0);
    var a := Line("accounts_receivable", Debit, r.balance, "Receivable " + r.id);
    var b := [Line("sales_income", Credit, r.total, "Sale " + r.id)];
    var c := if received > 0.0 then [Line("cash", Debit, received, "Cash received " + r.id)] else [];
    assert SaleLines(r) == [a] + b + c;
    assert a.account != "cash" by {
      assert a.account[0] == 'a';
    }
    assert b[0].account != "cash" by {
      assert b[0].account[0] == 's';
    }
    SumBatch(a, b, c, LineDebit);
    SumBatch(a, b, c, LineCredit);
    SumBatch(a, b, c, LineCashDebit);
    SumBatch(a, b, c, LineCashCredit);
  }

  /** The debit, credit and cash totals of a transaction batch. */
  lemma TransactionTotals(r: Transaction, kind: TransactionType, ids: seq<Id>)
    requires |ids| >= 3
    ensures var es := TransactionPostings(r, kind, ids);
      var paid := r.paid.GetOr(0.0);
      var received := r.received.GetOr(0.0);
      && (kind == Purchase ==>
            && Debits(es) == r.total
            && Credits(es) == (if paid > 0.0 then paid else 0.0) + (if r.balance > 0.0 then r.balance else 0.0)
            && CashDebits(es) == 0.0
            && CashCredits(es) == (if paid > 0.0 then paid else 0.0))
      && (kind == Sale ==>
            && Debits(es) == r.balance + (if received > 0.0 then received else 0.0)
            && Credits(es) == r.total
            && CashDebits(es) == (if received > 0.0 then received else 0.0)
            && CashCredits(es) == 0.0)
  {
    if kind == Purchase {
      StampTotals(PurchaseLines(r), ids, r.date);
      PurchaseLineTotals(r);
    } else {
      StampTotals(SaleLines(r), ids, r.date);
      SaleLineTotals(r);
    }
  }

  /**
   * A purchase or sale whose payment lies between 0 and its total, with the
   * balance the handler computes, posts equal debits and credits.
   */
  lemma TransactionPostingsBalanced(r: Transaction, kind: TransactionType, ids: seq<Id>)
    requires |ids| >= 3
    requires 0.0 <= Payment(r, kind) <= r.total
    requires r.balance == r.total - Payment(r, kind)
    ensures Debits(TransactionPostings(r, kind, ids)) == Credits(TransactionPostings(r, kind, ids)) == r.total
  {
    TransactionTotals(r, kind, ids);
  }

  /**
   * Nothing rejects a negative payment, and then the batch is off balance by
   * its size: the negative cash line is skipped but the balance still counts it.
   */
  lemma NegativePaymentUnbalances(r: Transaction, kind: TransactionType, ids: seq<Id>)
    requires |ids| >= 3
    requires Payment(r, kind) < 0.0
    requires r.balance == r.total - Payment(r, kind)
    requires r.total >= 0.0
    ensures kind == Purchase ==>
              Credits(TransactionPostings(r, kind, ids)) - Debits(TransactionPostings(r, kind, ids)) == -Payment(r, kind)
    ensures kind == Sale ==>
              Debits(TransactionPostings(r, kind, ids)) - Credits(TransactionPostings(r, kind, ids)) == -Payment(r, kind)
  {
    TransactionTotals(r, kind, ids);
  }

  /** The expense batch always balances, and moves its amount out of cash. */
  lemma ExpenseTotals(r: Expense, ids: seq<Id>)
    requires |ids| >= 2
    ensures Debits(ExpensePostings(r, ids)) == Credits(ExpensePostings(r, ids)) == r.amount
    ensures CashDebits(ExpensePostings(r, ids)) == 0.0
    ensures CashCredits(ExpensePostings(r, ids)) == r.amount
  {
    var a := Line("expense:" + r.category.GetOr("null"), Debit, r.amount, "Expense " + r.id);
    var b := Line("cash", Credit, r.amount, "Expense " + r.id);
    assert a.account != "cash" by {
      assert a.account[0] == 'e';
    }
    assert ExpensePostings(r, ids) == Stamp([a, b], ids, r.date);
    StampTotals([a, b], ids, r.date);
    ExpenseLineTotals(a, b);
  }

  lemma ExpenseLineTotals(a: Line, b: Line)
    requires a.kind == Debit && b.kind == Credit && a.amount == b.amount
    requires a.account != "cash" && b.account == "cash"
    ensures Sum([a, b], LineDebit) == Sum([a, b], LineCredit) == Sum([a, b], LineCashCredit) == a.amount
    ensures Sum([a, b], LineCashDebit) == 0.0
  {
    assert [a, b] == [a] + [b] + [];
    SumBatch(a, [b], [], LineDebit);
    SumBatch(a, [b], [], LineCredit);
    SumBatch(a, [b], [], LineCashDebit);
    SumBatch(a, [b], [], LineCashCredit);
  }

  /** Every entry a transaction or expense posts mentions the record's id in its description. */
  lemma TransactionPostingsMentionRecord(r: Transaction, kind: TransactionType, ids: seq<Id>)
    requires |ids| >= 3
    ensures forall i :: 0 <= i < |TransactionPostings(r, kind, ids)| ==> Mentions(TransactionPostings(r, kind, ids)[i], r.id)
  {
    ContainsSuffix("Purchase ", r.id);
    ContainsSuffix("Cash paid ", r.id);
    ContainsSuffix("Payable ", r.id);
    ContainsSuffix("Receivable ", r.id);
    ContainsSuffix("Sale ", r.id);
    ContainsSuffix("Cash received ", r.id);
  }

  /** Both expense entries mention the expense's id. */
  lemma ExpensePostingsMentionRecord(r: Expense, ids: seq<Id>)
    requires |ids| >= 2
    ensures forall i :: 0 <= i < 2 ==> Mentions(ExpensePostings(r, ids)[i], r.id)
  {
    ContainsSuffix("Expense ", r.id);
  }

  // ---------------------------------------------------------------------
  // Retraction by description
  // ---------------------------------------------------------------------

  predicate KeepsUnmentioned(id: Id, e: LedgerEntry) { !Mentions(e, id) }

  /**
   * The entries left by `removeLedgerEntriesForReference(id)`: all of them
   * for an empty id, otherwise exactly those whose description does not
   * contain the id, in their original order.
   */
  function RemoveReferencing(entries: seq<LedgerEntry>, id: Id): (r: seq<LedgerEntry>)
    ensures id == "" ==> r == entries
    ensures id != "" ==> forall i :: 0 <= i < |r| ==> r[i] in entries && !Mentions(r[i], id)
    ensures id != "" ==> forall i :: 0 <= i < |entries| && !Mentions(entries[i], id) ==> entries[i] in r
  {
    if id == "" then entries else Filter(entries, e => KeepsUnmentioned(id, e))
  }

  /** Retraction works batch by batch. */
  lemma RemoveReferencingAppend(a: seq<LedgerEntry>, b: seq<LedgerEntry>, id: Id)
    ensures RemoveReferencing(a + b, id) == RemoveReferencing(a, id) + RemoveReferencing(b, id)
  {
    if id != "" {
      FilterAppend(a, b, e => KeepsUnmentioned(id, e));
    }
  }

  /** Retracting a record's id removes its whole posting batch, so re-posting on an edit replaces the old batch. */
  lemma RetractRemovesPostings(entries: seq<LedgerEntry>, r: Transaction, kind: TransactionType, ids: seq<Id>)
    requires |ids| >= 3 && r.id != ""
    ensures RemoveReferencing(entries + TransactionPostings(r, kind, ids), r.id) == RemoveReferencing(entries, r.id)
  {
    var es := TransactionPostings(r, kind, ids);
    RemoveReferencingAppend(entries, es, r.id);
    TransactionPostingsMentionRecord(r, kind, ids);
    FilterNone(es, e => KeepsUnmentioned(r.id, e));
    assert entries + [] == entries;
  }

  /** Retracting an expense's id removes both of its entries, so a resubmitted expense never doubles its postings. */
  lemma RetractRemovesExpensePostings(entries: seq<LedgerEntry>, r: Expense, ids: seq<Id>)
    requires |ids| >= 2 && r.id != ""
    ensures RemoveReferencing(entries + ExpensePostings(r, ids), r.id) == RemoveReferencing(entries, r.id)
  {
    var es := ExpensePostings(r, ids);
    RemoveReferencingAppend(entries, es, r.id);
    ExpensePostingsMentionRecord(r, ids);
    FilterNone(es, e => KeepsUnmentioned(r.id, e));
    assert entries + [] == entries;
  }

  /** Retraction is by substring, so it also deletes any other entry whose description happens to contain the id. */
  lemma RetractionIsBySubstring(e: LedgerEntry, id: Id, text: string)
    requires id != "" && e.description == Some(text + id)
    ensures RemoveReferencing([e], id) == []
  {
    ContainsSuffix(text, id);
  }
}
