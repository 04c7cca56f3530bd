/**
 * The bookkeeping engine: the in-memory `state` of app.js as a class whose
 * collections the form handlers update in place.
 *
 * Each handler receives the form's already-parsed values, the fresh ids its
 * `Utils.uuid()` calls would draw, and today's date. The IndexedDB writes
 * that mirror every state change are not part of this model.
 */
module Engine {
  import opened Wrappers
  import opened Utils
  import opened Records
  import opened Postings
  import opened Stock

  // ---------------------------------------------------------------------
  // Form payloads and outcomes
  // ---------------------------------------------------------------------

  /** Why a submission was turned away with an error toast. */
  datatype Rejection = QuantityNotPositive | InsufficientStock | PaymentExceedsTotal | ItemNotFound

  /** Whether a handler changed the state. */
  datatype Outcome = Accepted | Rejected(reason: Rejection)

  /** The purchase/sale form; "" stands for an empty text field. */
  datatype TransactionForm = TransactionForm(
    recordId: Id, itemId: Id, partyId: Option<Id>, quantity: real, rate: real,
    payment: real, dueDate: string, date: Date)

  /** The ids a transaction submission draws: the record's, its movement's, its ledger entries'. */
  datatype FreshIds = FreshIds(record: Id, movement: Id, entries: seq<Id>)

  /** The inventory form. */
  datatype ItemForm = ItemForm(
    recordId: Id, sku: string, name: string, category: string,
    cost: real, openingStock: real, reorder: real)

  /** The expense form; `recurring` is the checkbox being 'on'. */
  datatype ExpenseForm = ExpenseForm(
    recordId: Id, category: Option<string>, amount: real, date: Date,
    partyId: string, recurring: bool, frequency: string)

  /** The cash/bank form. */
  datatype CashForm = CashForm(recordId: Id, bank: Id, kind: EntryType, amount: real, date: Date, description: string)

  /** The loan/capital form. */
  datatype LoanForm = LoanForm(recordId: Id, typeSelection: string, partyId: Id, amount: real, date: Date, interest: real)

  /** The record date: the form's date if filled in, else the existing record's non-empty date, else today. */
  function PickDate(formDate: Date, existingDate: Option<Date>, today: Date): (d: Date)
    ensures formDate != "" ==> d == formDate
    ensures formDate == "" && existingDate.Some? && existingDate.value != "" ==> d == existingDate.value
    ensures d == formDate || d == today || (existingDate.Some? && d == existingDate.value)
    ensures formDate == "" && !(existingDate.Some? && existingDate.value != "") ==> d == today
  {
    if formDate != "" then formDate
    else if existingDate.Some? && existingDate.value != "" then existingDate.value
    else today
  }

  /** `record.id` of a new record: the form's hidden id if set, a fresh uuid otherwise. */
  function NewId(recordId: Id, freshId: Id): Id {
    if recordId != "" then recordId else freshId
  }

  // ---------------------------------------------------------------------
  // Purchases and sales
  // ---------------------------------------------------------------------

  /**
   * The three checks of `handleTransactionSubmit`, in the order they run:
   * a positive quantity, enough stock for a sale (the stock still counting
   * the movement of the sale being edited), and a payment within the total.
   */
  function Validate(kind: TransactionType, quantity: real, rate: real, payment: real, available: real): (r: Option<Rejection>)
    ensures r.None? <==> quantity > 0.0 && (kind == Sale ==> quantity <= available) && payment <= quantity * rate
    ensures r == Some(QuantityNotPositive) <==> quantity <= 0.0
    ensures r == Some(InsufficientStock) <==> quantity > 0.0 && kind == Sale && quantity > available
    ensures r.Some? ==> r.value != ItemNotFound
  {
    if quantity <= 0.0 then Some(QuantityNotPositive)
    else if kind == Sale && quantity > available then Some(InsufficientStock)
    else if payment > quantity * rate then Some(PaymentExceedsTotal)
    else None
  }

  /** The record being edited: only looked up when the form carries an id. */
  function Existing<T>(list: seq<T>, recordId: Id, idOf: T -> Id): (r: Option<T>)
    ensures r.Some? ==> recordId != "" && r.value in list && idOf(r.value) == recordId
    ensures r.None? ==> recordId == "" || forall i :: 0 <= i < |list| ==> idOf(list[i]) != recordId
  {
    if recordId == "" then None else Find(list, recordId, idOf)
  }

  /**
   * The record an accepted purchase or sale stores: total is quantity times
   * rate, the balance is what the payment leaves open, a sale carries only
   * `received` and a purchase only `paid`; an edit keeps the record's id and
   * attachment.
   */
  function TransactionRecord(kind: TransactionType, f: TransactionForm, existing: Option<Transaction>, freshId: Id, today: Date): (r: Transaction)
    ensures r.itemId == f.itemId && r.partyId == f.partyId && r.quantity == f.quantity && r.rate == f.rate
    ensures r.total == f.quantity * f.rate
    ensures Payment(r, kind) == f.payment && r.balance == r.total - Payment(r, kind)
    ensures kind == Sale ==> r.paid.None? && r.received.Some?
    ensures kind == Purchase ==> r.received.None? && r.paid.Some?
    ensures r.dueDate.Some? <==> f.dueDate != ""
    ensures existing.Some? ==> r.id == existing.value.id
    ensures existing.None? ==> r.id == NewId(f.recordId, freshId) && r.attachmentId.None?
    ensures existing.Some? && existing.value.attachmentId.Some? && existing.value.attachmentId.value != "" ==>
              r.attachmentId == existing.value.attachmentId
    ensures existing.Some? && (existing.value.attachmentId.None? || existing.value.attachmentId.value == "") ==>
              r.attachmentId.None?
    ensures r.date == PickDate(f.date, if existing.Some? then Some(existing.value.date) else None, today)
  {
    var amount := f.quantity * f.rate;
    Transaction(
      if existing.Some? then existing.value.id else NewId(f.recordId, freshId),
      f.itemId, f.partyId, f.quantity, f.rate, amount,
      if f.dueDate != "" then Some(f.dueDate) else None,
      PickDate(f.date, if existing.Some? then Some(existing.value.date) else None, today),
      amount - f.payment,
      if kind == Purchase then Some(f.payment) else None,
      if kind == Sale then Some(f.payment) else None,
      if existing.Some? && existing.value.attachmentId.Some? && existing.value.attachmentId.value != ""
      then existing.value.attachmentId else None)
  }

  /** A sale movement's unit cost: the item's cost, or the rate when the item is unknown or costs 0. */
  function SaleCost(items: seq<Item>, itemId: Id, rate: real): (c: real)
    ensures c == rate || exists i :: 0 <= i < |items| && items[i].id == itemId && items[i].cost == c
    ensures var found := Find(items, itemId, ItemKey);
      found.Some? && found.value.cost != 0.0 ==> c == found.value.cost
    ensures var found := Find(items, itemId, ItemKey);
      found.None? || found.value.cost == 0.0 ==> c == rate
  {
    match Find(items, itemId, ItemKey)
    case Some(item) => if item.cost != 0.0 then item.cost else rate
    case None => rate
  }

  /**
   * The one movement an accepted transaction adds: +quantity at the rate for
   * a purchase, -quantity at the item's cost for a sale, referring to the
   * record.
   */
  function TransactionMovement(kind: TransactionType, record: Transaction, items: seq<Item>, id: Id): (m: Movement)
    ensures m.id == id && m.itemId == record.itemId && m.date == record.date
    ensures m.referenceId == Some(record.id)
    ensures m.kind == MovementKind(kind) && Abs(m.quantity) == Abs(record.quantity)
    ensures kind == Purchase ==> m.quantity == record.quantity && m.cost == record.rate
    ensures kind == Sale ==> m.quantity == -record.quantity && m.cost == SaleCost(items, record.itemId, record.rate)
  {
    Movement(id, record.itemId, MovementKind(kind),
             if kind == Sale then -record.quantity else record.quantity,
             if kind == Sale then SaleCost(items, record.itemId, record.rate) else record.rate,
             record.date, Some(record.id))
  }

  // ---------------------------------------------------------------------
  // Inventory
  // ---------------------------------------------------------------------

  /** `{ ...existing, ...payload }`: the edit replaces every form field and keeps id and opening date. */
  function EditedItem(existing: Item, f: ItemForm): (r: Item)
    ensures r.id == existing.id && r.openingDate == existing.openingDate
    ensures r.cost == f.cost && r.openingStock == f.openingStock
    ensures r.sku == f.sku && r.name == f.name && r.category == f.category && r.reorder == f.reorder
  {
    existing.(sku := f.sku, name := f.name, category := f.category, cost := f.cost,
              openingStock := f.openingStock, reorder := f.reorder)
  }

  /** A new item: a fresh id, the form's fields and today as opening date. */
  function NewItem(f: ItemForm, id: Id, today: Date): (r: Item)
    ensures r.id == id && r.openingDate == today
    ensures r.cost == f.cost && r.openingStock == f.openingStock
    ensures r.sku == f.sku && r.name == f.name && r.category == f.category && r.reorder == f.reorder
  {
    Item(id, f.sku, f.name, f.category, f.cost, f.openingStock, f.reorder, today)
  }

  /** The opening movement of an item: its opening stock at its cost, referring to the item. */
  function OpeningFor(item: Item, id: Id, date: Date): (m: Movement)
    ensures m.kind == OpeningMovement && m.itemId == item.id && m.referenceId == Some(item.id)
    ensures m.quantity == item.openingStock && m.cost == item.cost
    ensures m.id == id && m.date == date
  {
    Movement(id, item.id, OpeningMovement, item.openingStock, item.cost, date, Some(item.id))
  }

  /** The movement the inventory edit looks for: one referring to the item, or an opening movement of it. */
  predicate IsOpeningOf(itemId: Id, m: Movement) {
    m.referenceId == Some(itemId) || (m.itemId == itemId && m.kind == OpeningMovement)
  }

  /** The first movement the inventory edit finds, if any. */
  function OpeningIndex(ms: seq<Movement>, itemId: Id): (r: Option<nat>)
    ensures r.Some? ==> r.value < |ms| && IsOpeningOf(itemId, ms[r.value])
    ensures r.Some? ==> forall j :: 0 <= j < r.value ==> !IsOpeningOf(itemId, ms[j])
    ensures r.None? ==> forall j :: 0 <= j < |ms| ==> !IsOpeningOf(itemId, ms[j])
    decreases |ms|
  {
    if |ms| == 0 then None
    else if IsOpeningOf(itemId, ms[0]) then Some(0)
    else match OpeningIndex(ms[1..], itemId)
      case None => None
      case Some(k) => Some(k + 1)
  }

  // ---------------------------------------------------------------------
  // Expenses, cash and loans
  // ---------------------------------------------------------------------

  /**
   * The expense the form stores: amount, category and recurrence from the
   * form; a recurring expense always has a frequency (the form's, the old
   * one, or 'monthly'), a one-off none; an edit keeps id and attachment.
   */
  function ExpenseRecord(f: ExpenseForm, existing: Option<Expense>, freshId: Id, today: Date): (r: Expense)
    ensures r.amount == f.amount && r.category == f.category && r.recurring == f.recurring
    ensures r.recurring ==> r.frequency.Some? && r.frequency.value != ""
    ensures r.recurring && f.frequency != "" ==> r.frequency == Some(f.frequency)
    ensures var kept := existing.Some? && existing.value.frequency.Some? && existing.value.frequency.value != "";
      r.recurring && f.frequency == "" && kept ==> r.frequency == existing.value.frequency
    ensures var kept := existing.Some? && existing.value.frequency.Some? && existing.value.frequency.value != "";
      r.recurring && f.frequency == "" && !kept ==> r.frequency == Some("monthly")
    ensures !r.recurring ==> r.frequency.None?
    ensures r.partyId.Some? <==> f.partyId != ""
    ensures f.partyId != "" ==> r.partyId == Some(f.partyId)
    ensures r.date == PickDate(f.date, if existing.Some? then Some(existing.value.date) else None, today)
    ensures existing.Some? ==> r.id == existing.value.id && r.attachmentId == existing.value.attachmentId
    ensures existing.None? ==> r.id == NewId(f.recordId, freshId) && r.attachmentId.None?
  {
    var frequency :=
      if !f.recurring then None
      else if f.frequency != "" then Some(f.frequency)
      else if existing.Some? && existing.value.frequency.Some? && existing.value.frequency.value != "" then existing.value.frequency
      else Some("monthly");
    Expense(
      if existing.Some? then existing.value.id else NewId(f.recordId, freshId),
      f.category, f.amount,
      PickDate(f.date, if existing.Some? then Some(existing.value.date) else None, today),
      if f.partyId != "" then Some(f.partyId) else None,
      f.recurring, frequency,
      if existing.Some? then existing.value.attachmentId else None)
  }

  /** The cash/bank entry the form stores; an edit keeps id, party and interest. */
  function CashRecord(f: CashForm, existing: Option<LedgerEntry>, freshId: Id, today: Date): (r: LedgerEntry)
    ensures r.accountId == f.bank && r.kind == f.kind && r.amount == f.amount && r.description == Some(f.description)
    ensures existing.Some? ==> r.id == existing.value.id && r.partyId == existing.value.partyId && r.interest == existing.value.interest
    ensures existing.None? ==> r.id == NewId(f.recordId, freshId) && r.partyId.None? && r.interest.None?
    ensures r.date == PickDate(f.date, if existing.Some? then Some(existing.value.date) else None, today)
  {
    LedgerEntry(
      if existing.Some? then existing.value.id else NewId(f.recordId, freshId),
      f.bank, f.kind, f.amount,
      PickDate(f.date, if existing.Some? then Some(existing.value.date) else None, today),
      Some(f.description),
      if existing.Some? then existing.value.partyId else None,
      if existing.Some? then existing.value.interest else None)
  }

  /** The party's name for a loan description, or the id itself when no party has that id. */
  function PartyName(parties: seq<Party>, partyId: Id): (name: string)
    ensures name == partyId || exists i :: 0 <= i < |parties| && parties[i].id == partyId && parties[i].name == name
    ensures var found := Find(parties, partyId, PartyKey);
      found.Some? && found.value.name != "" ==> name == found.value.name
    ensures var found := Find(parties, partyId, PartyKey);
      found.None? || found.value.name == "" ==> name == partyId
  {
    match Find(parties, partyId, PartyKey)
    case Some(p) => if p.name != "" then p.name else partyId
    case None => partyId
  }

  /**
   * The loan/capital entry: a single credit on 'loans' (for the type 'loan')
   * or 'capital' (for anything else), described as "<type> entry for <party>".
   */
  function LoanRecord(f: LoanForm, parties: seq<Party>, existing: Option<LedgerEntry>, freshId: Id, today: Date): (r: LedgerEntry)
    ensures r.kind == Credit && r.amount == f.amount
    ensures r.accountId == (if f.typeSelection == "loan" then "loans" else "capital")
    ensures r.description == Some(f.typeSelection + " entry for " + PartyName(parties, f.partyId))
    ensures r.partyId == Some(f.partyId) && r.interest == Some(f.interest)
    ensures existing.Some? ==> r.id == existing.value.id
    ensures existing.None? ==> r.id == NewId(f.recordId, freshId)
    ensures r.date == PickDate(f.date, if existing.Some? then Some(existing.value.date) else None, today)
  {
    LedgerEntry(
      if existing.Some? then existing.value.id else NewId(f.recordId, freshId),
      if f.typeSelection == "loan" then "loans" else "capital",
      Credit, f.amount,
      PickDate(f.date, if existing.Some? then Some(existing.value.date) else None, today),
      Some(f.typeSelection + " entry for " + PartyName(parties, f.partyId)),
      Some(f.partyId), Some(f.interest))
  }

  // ---------------------------------------------------------------------
  // Bank balances
  // ---------------------------------------------------------------------

  /** What an entry does to its bank's balance at direction 1: deposits, debits and transfers add, withdrawals and credits subtract. */
  function BankDelta(e: LedgerEntry): (d: real)
    ensures e.kind.Deposit? || e.kind.Debit? || e.kind.Transfer? ==> d == e.amount
    ensures e.kind.Withdrawal? || e.kind.Credit? ==> d == -e.amount
    ensures e.kind.OtherType? ==> d == 0.0
  {
    match e.kind
    case Deposit => e.amount
    case Debit => e.amount
    case Transfer => e.amount
    case Withdrawal => -e.amount
    case Credit => -e.amount
    case OtherType(_) => 0.0
  }

  /**
   * The banks after `adjustBankBalance(entry, direction)`: only the first
   * bank whose id is the entry's account moves, by direction times the
   * entry's delta; an entry on any other account (such as 'cash') changes
   * nothing.
   */
  function AdjustedBanks(banks: seq<Bank>, e: LedgerEntry, direction: real): (r: seq<Bank>)
    ensures |r| == |banks|
    ensures FindIndex(banks, e.accountId, BankKey).None? ==> r == banks
    ensures FindIndex(banks, e.accountId, BankKey).Some? ==>
              var k := FindIndex(banks, e.accountId, BankKey).value;
              && r[k] == banks[k].(balance := banks[k].balance + direction * BankDelta(e))
              && forall j :: 0 <= j < |banks| && j != k ==> r[j] == banks[j]
  {
    match FindIndex(banks, e.accountId, BankKey)
    case None => banks
    case Some(k) => banks[k := banks[k].(balance := banks[k].balance + direction * BankDelta(e))]
  }

  /** The adjustment rewrites exactly the entry's bank, found by its first index. */
  lemma AdjustedBanksAt(banks: seq<Bank>, e: LedgerEntry, direction: real, k: nat)
    requires FindIndex(banks, e.accountId, BankKey) == Some(k)
    ensures AdjustedBanks(banks, e, direction) == banks[k := banks[k].(balance := banks[k].balance + direction * BankDelta(e))]
  {
    var r := AdjustedBanks(banks, e, direction);
    var expected := banks[k := banks[k].(balance := banks[k].balance + direction * BankDelta(e))];
    assert |r| == |expected|;
    forall j | 0 <= j < |r| ensures r[j] == expected[j] {
    }
  }

  /** Undoing an entry and applying it again leaves every bank as it was. */
  lemma AdjustUndoRedo(banks: seq<Bank>, e: LedgerEntry)
    ensures AdjustedBanks(AdjustedBanks(banks, e, -1.0), e, 1.0) == banks
  {
    var once := AdjustedBanks(banks, e, -1.0);
    if k :| FindIndex(banks, e.accountId, BankKey) == Some(k) {
      assert FindIndex(once, e.accountId, BankKey) == Some(k) by {
        SameIdsSameIndex(banks, once, e.accountId);
      }
      assert AdjustedBanks(once, e, 1.0)[k] == banks[k];
    }
  }

  /** Changing balances keeps the ids, so lookups find the same position. */
  lemma {:induction false} SameIdsSameIndex(a: seq<Bank>, b: seq<Bank>, id: Id)
    requires |a| == |b| && forall i :: 0 <= i < |a| ==> a[i].id == b[i].id
    ensures FindIndex(a, id, BankKey) == FindIndex(b, id, BankKey)
    decreases |a|
  {
    if |a| > 0 {
      SameIdsSameIndex(a[1..], b[1..], id);
    }
  }

  /**
   * Editing a cash entry on a bank from `before` to `after` (both on that
   * bank) moves its balance by the difference of their deltas.
   */
  lemma CashEditNets(banks: seq<Bank>, before: LedgerEntry, after: LedgerEntry, k: nat)
    requires FindIndex(banks, before.accountId, BankKey) == Some(k)
    requires after.accountId == before.accountId
    ensures var r := AdjustedBanks(AdjustedBanks(banks, before, -1.0), after, 1.0);
      |r| == |banks| && r[k].balance == banks[k].balance - BankDelta(before) + BankDelta(after)
  {
    SameIdsSameIndex(banks, AdjustedBanks(banks, before, -1.0), before.accountId);
  }

  /** A deposit of 100 takes 500 to 600; editing it to 150 lands on 650. */
  lemma CashEditExample()
    ensures var bank := Bank("bank-1", "Main", 500.0);
      var first := LedgerEntry("e-1", "bank-1", Deposit, 100.0, "d1", Some("float"), None, None);
      var second := first.(amount := 150.0);
      && AdjustedBanks([bank], first, 1.0) == [bank.(balance := 600.0)]
      && AdjustedBanks(AdjustedBanks(AdjustedBanks([bank], first, 1.0), first, -1.0), second, 1.0) == [bank.(balance := 650.0)]
  {
    var bank := Bank("bank-1", "Main", 500.0);
    var first := LedgerEntry("e-1", "bank-1", Deposit, 100.0, "d1", Some("float"), None, None);
    var second := first.(amount := 150.0);
    assert FindIndex([bank], "bank-1", BankKey) == Some(0);
    var b1 := AdjustedBanks([bank], first, 1.0);
    assert b1 == [bank.(balance := 600.0)];
    CashEditNets(b1, first, second, 0);
  }

  // ---------------------------------------------------------------------
  // The state
  // ---------------------------------------------------------------------

  /** `state`: the collections the handlers keep consistent. */
  class Books {
    var items: seq<Item>
    var stockMovements: seq<Movement>
    var purchases: seq<Transaction>
    var sales: seq<Transaction>
    var expenses: seq<Expense>
    var ledgerEntries: seq<LedgerEntry>
    var parties: seq<Party>
    var banks: seq<Bank>

    /** The state after `loadState`: the collections read from the store. */
    constructor (d: AppData)
      ensures Data() == d
    {
      items := d.items;
      stockMovements := d.stockMovements;
      purchases := d.purchases;
      sales := d.sales;
      expenses := d.expenses;
      ledgerEntries := d.ledgerEntries;
      parties := d.parties;
      banks := d.banks;
    }

    /** The collections as one value, as the reports read them. */
    function Data(): AppData
      reads this
    {
      AppData(items, stockMovements, purchases, sales, expenses, ledgerEntries, parties, banks)
    }

    /** `calculateAvailableStock(itemId)`. */
    function AvailableStock(itemId: Id): real
      reads this
    {
      StockOf(stockMovements, itemId)
    }

    /** The sales or the purchases collection, by transaction type. */
    function Transactions(kind: TransactionType): seq<Transaction>
      reads this
    {
      if kind == Sale then sales else purchases
    }

    /** `upsertStateRecord('items', record)`. */
    method UpsertItem(record: Item)
      modifies this
      ensures items == Upsert(old(items), record, ItemKey)
      ensures stockMovements == old(stockMovements) && purchases == old(purchases) && sales == old(sales)
      ensures expenses == old(expenses) && ledgerEntries == old(ledgerEntries) && parties == old(parties) && banks == old(banks)
    {
      var index := FindIndex(items, record.id, ItemKey);
      if index.Some? {
        items := items[index.value := record];
      } else {
        items := items + [record];
      }
    }

    /** `upsertStateRecord('sales' | 'purchases', record)`. */
    method UpsertTransaction(kind: TransactionType, record: Transaction)
      modifies this
      ensures Transactions(kind) == Upsert(old(Transactions(kind)), record, TransactionKey)
      ensures kind == Sale ==> purchases == old(purchases)
      ensures kind == Purchase ==> sales == old(sales)
      ensures items == old(items) && stockMovements == old(stockMovements)
      ensures expenses == old(expenses) && ledgerEntries == old(ledgerEntries) && parties == old(parties) && banks == old(banks)
    {
      var list := Transactions(kind);
      var index := FindIndex(list, record.id, TransactionKey);
      if index.Some? {
        list := list[index.value := record];
      } else {
        list := list + [record];
      }
      if kind == Sale {
        sales := list;
      } else {
        purchases := list;
      }
    }

    /** `upsertStateRecord('expenses', record)`. */
    method UpsertExpense(record: Expense)
      modifies this
      ensures expenses == Upsert(old(expenses), record, ExpenseKey)
      ensures items == old(items) && stockMovements == old(stockMovements) && purchases == old(purchases) && sales == old(sales)
      ensures ledgerEntries == old(ledgerEntries) && parties == old(parties) && banks == old(banks)
    {
      var index := FindIndex(expenses, record.id, ExpenseKey);
      if index.Some? {
        expenses := expenses[index.value := record];
      } else {
        expenses := expenses + [record];
      }
    }

    /** `upsertStateRecord('ledgerEntries', record)`. */
    method UpsertEntry(record: LedgerEntry)
      modifies this
      ensures ledgerEntries == Upsert(old(ledgerEntries), record, EntryKey)
      ensures items == old(items) && stockMovements == old(stockMovements) && purchases == old(purchases) && sales == old(sales)
      ensures expenses == old(expenses) && parties == old(parties) && banks == old(banks)
    {
      var index := FindIndex(ledgerEntries, record.id, EntryKey);
      if index.Some? {
        ledgerEntries := ledgerEntries[index.value := record];
      } else {
        ledgerEntries := ledgerEntries + [record];
      }
    }

    /** `removeLedgerEntriesForReference(referenceId)`. */
    method RemoveLedgerEntriesForReference(referenceId: Id)
      modifies this
      ensures ledgerEntries == RemoveReferencing(old(ledgerEntries), referenceId)
      ensures items == old(items) && stockMovements == old(stockMovements) && purchases == old(purchases) && sales == old(sales)
      ensures expenses == old(expenses) && parties == old(parties) && banks == old(banks)
    {
      if referenceId == "" {
        return;
      }
      ledgerEntries := RemoveReferencing(ledgerEntries, referenceId);
    }

    /** `removeStockMovementsForTransaction(record, type)`. */
    method RemoveStockMovementsForTransaction(record: Option<Transaction>, kind: TransactionType)
      modifies this
      ensures record.None? ==> stockMovements == old(stockMovements)
      ensures record.Some? ==> stockMovements == RemoveMatched(old(stockMovements), record.value, kind)
      ensures items == old(items) && purchases == old(purchases) && sales == old(sales)
      ensures expenses == old(expenses) && ledgerEntries == old(ledgerEntries) && parties == old(parties) && banks == old(banks)
    {
      if record.None? {
        return;
      }
      stockMovements := RemoveMatched(stockMovements, record.value, kind);
    }

    /** `adjustBankBalance(entry, direction)`. */
    method AdjustBankBalance(entry: LedgerEntry, direction: real)
      modifies this
      ensures banks == AdjustedBanks(old(banks), entry, direction)
      ensures items == old(items) && stockMovements == old(stockMovements) && purchases == old(purchases) && sales == old(sales)
      ensures expenses == old(expenses) && ledgerEntries == old(ledgerEntries) && parties == old(parties)
    {
      var index := FindIndex(banks, entry.accountId, BankKey);
      if index.None? {
        return;
      }
      var bank := banks[index.value];
      AdjustedBanksAt(banks, entry, direction, index.value);
      var balance := bank.balance;
      if entry.kind == Deposit || entry.kind == Debit || entry.kind == Transfer {
        balance := balance + direction * entry.amount;
      } else if entry.kind == Withdrawal || entry.kind == Credit {
        balance := balance - direction * entry.amount;
        assert direction * BankDelta(entry) == -(direction * entry.amount);
      }
      assert balance == bank.balance + direction * BankDelta(entry);
      banks := banks[index.value := bank.(balance := balance)];
    }

    /** `recalculateItemCost(itemId)`. */
    method RecalculateItemCost(itemId: Id)
      modifies this
      ensures items == RecalculatedItems(old(items), old(stockMovements), itemId)
      ensures stockMovements == old(stockMovements) && purchases == old(purchases) && sales == old(sales)
      ensures expenses == old(expenses) && ledgerEntries == old(ledgerEntries) && parties == old(parties) && banks == old(banks)
    {
      var index := FindIndex(items, itemId, ItemKey);
      if index.None? {
        return;
      }
      var average := WeightedAverageCost(InflowLines(stockMovements, itemId));
      var item := items[index.value];
      if average > 0.0 && Abs(item.cost - average) > 0.01 {
        items := items[index.value := item.(cost := RoundToCents(average))];
      }
    }

    /** `addStockMovement(movement)`: appends, then re-averages the cost after a purchase or opening movement. */
    method AddStockMovement(m: Movement)
      modifies this
      ensures stockMovements == old(stockMovements) + [m]
      ensures items == if m.kind == SaleMovement then old(items) else RecalculatedItems(old(items), stockMovements, m.itemId)
      ensures purchases == old(purchases) && sales == old(sales)
      ensures expenses == old(expenses) && ledgerEntries == old(ledgerEntries) && parties == old(parties) && banks == old(banks)
    {
      stockMovements := stockMovements + [m];
      if m.kind == PurchaseMovement || m.kind == OpeningMovement {
        RecalculateItemCost(m.itemId);
      }
    }

    /** `registerLedgerEntries(record, type)`: pushes the record's batch one entry at a time. */
    method RegisterLedgerEntries(record: Transaction, kind: TransactionType, ids: seq<Id>)
      requires |ids| >= 3
      modifies this
      ensures ledgerEntries == old(ledgerEntries) + TransactionPostings(record, kind, ids)
      ensures items == old(items) && stockMovements == old(stockMovements) && purchases == old(purchases) && sales == old(sales)
      ensures expenses == old(expenses) && parties == old(parties) && banks == old(banks)
    {
      PushEntries(TransactionPostings(record, kind, ids));
    }

    /** `registerExpenseLedger(record)`: pushes the category debit and the cash credit. */
    method RegisterExpenseLedger(record: Expense, ids: seq<Id>)
      requires |ids| >= 2
      modifies this
      ensures ledgerEntries == old(ledgerEntries) + ExpensePostings(record, ids)
      ensures items == old(items) && stockMovements == old(stockMovements) && purchases == old(purchases) && sales == old(sales)
      ensures expenses == old(expenses) && parties == old(parties) && banks == old(banks)
    {
      PushEntries(ExpensePostings(record, ids));
    }

    /** Appends a batch of entries to the ledger one at a time, shared by both registrations. */
    method PushEntries(entries: seq<LedgerEntry>)
      modifies this`ledgerEntries
      ensures ledgerEntries == old(ledgerEntries) + entries
    {
      for k := 0 to |entries|
        invariant ledgerEntries == old(ledgerEntries) + entries[..k]
      {
        ledgerEntries := ledgerEntries + [entries[k]];
      }
      assert entries[..|entries|] == entries;
    }

    /**
     * `handleTransactionSubmit(event, type)`. A rejected submission changes
     * nothing. An accepted one upserts the record, retracts the edited
     * record's movements and postings, adds the new movement and posts the
     * new batch.
     */
    method HandleTransactionSubmit(kind: TransactionType, f: TransactionForm, drawn: FreshIds, today: Date) returns (outcome: Outcome)
      requires |drawn.entries| >= 3
      modifies this
      ensures outcome == match Validate(kind, f.quantity, f.rate, f.payment, StockOf(old(stockMovements), f.itemId))
                         case None => Accepted
                         case Some(reason) => Rejected(reason)
      ensures outcome.Rejected? ==> Data() == old(Data())
      ensures outcome.Accepted? ==>
                var existing := Existing(old(Transactions(kind)), f.recordId, TransactionKey);
                var record := TransactionRecord(kind, f, existing, drawn.record, today);
                var kept := if existing.Some? then RemoveMatched(old(stockMovements), existing.value, kind) else old(stockMovements);
                && Transactions(kind) == Upsert(old(Transactions(kind)), record, TransactionKey)
                && stockMovements == kept + [TransactionMovement(kind, record, old(items), drawn.movement)]
                && ledgerEntries == (if existing.Some? then RemoveReferencing(old(ledgerEntries), record.id) else old(ledgerEntries))
                                    + TransactionPostings(record, kind, drawn.entries)
                && items == (if kind == Sale then old(items) else RecalculatedItems(old(items), stockMovements, f.itemId))
      ensures kind == Sale ==> purchases == old(purchases)
      ensures kind == Purchase ==> sales == old(sales)
      ensures expenses == old(expenses) && parties == old(parties) && banks == old(banks)
    {
      var rejection := CheckTransaction(kind, f);
      if rejection.Some? {
        return Rejected(rejection.value);
      }
      var existing := Existing(Transactions(kind), f.recordId, TransactionKey);
      var record := TransactionRecord(kind, f, existing, drawn.record, today);
      var movement := TransactionMovement(kind, record, items, drawn.movement);
      PostTransaction(kind, existing, record, movement, drawn.entries);
      return Accepted;
    }

    /** The checks `handleTransactionSubmit` makes, in its order, before it changes anything. */
    method CheckTransaction(kind: TransactionType, f: TransactionForm) returns (rejection: Option<Rejection>)
      ensures rejection == Validate(kind, f.quantity, f.rate, f.payment, StockOf(stockMovements, f.itemId))
    {
      if f.quantity <= 0.0 {
        return Some(QuantityNotPositive);
      }
      if kind == Sale && f.quantity > AvailableStock(f.itemId) {
        return Some(InsufficientStock);
      }
      var amount := f.quantity * f.rate;
      if f.payment > amount {
        return Some(PaymentExceedsTotal);
      }
      return None;
    }

    /**
     * The accepted path of `handleTransactionSubmit`: upsert the record; for
     * an edit, retract the old record's movements and postings; then add the
     * new movement and post the new batch.
     */
    method PostTransaction(kind: TransactionType, existing: Option<Transaction>, record: Transaction, movement: Movement, ids: seq<Id>)
      requires |ids| >= 3
      modifies this
      ensures Transactions(kind) == Upsert(old(Transactions(kind)), record, TransactionKey)
      ensures stockMovements == (if existing.Some? then RemoveMatched(old(stockMovements), existing.value, kind) else old(stockMovements)) + [movement]
      ensures ledgerEntries == (if existing.Some? then RemoveReferencing(old(ledgerEntries), record.id) else old(ledgerEntries))
                               + TransactionPostings(record, kind, ids)
      ensures items == if movement.kind == SaleMovement then old(items) else RecalculatedItems(old(items), stockMovements, movement.itemId)
      ensures kind == Sale ==> purchases == old(purchases)
      ensures kind == Purchase ==> sales == old(sales)
      ensures expenses == old(expenses) && parties == old(parties) && banks == old(banks)
    {
      UpsertTransaction(kind, record);
      if existing.Some? {
        RemoveStockMovementsForTransaction(existing, kind);
        RemoveLedgerEntriesForReference(record.id);
      }
      AddStockMovement(movement);
      RegisterLedgerEntries(record, kind, ids);
    }

    /**
     * `handleInventorySubmit(event)`. An edit of an unknown item is
     * rejected. An edit rewrites the item and its opening movement in place
     * (without re-averaging the cost), or adds an opening movement when there
     * is none. A new item is appended with its opening movement.
     */
    method HandleInventorySubmit(f: ItemForm, freshItem: Id, freshMovement: Id, today: Date) returns (outcome: Outcome)
      modifies this
      ensures outcome.Rejected? <==> f.recordId != "" && Find(old(items), f.recordId, ItemKey).None?
      ensures outcome.Rejected? ==> outcome.reason == ItemNotFound && Data() == old(Data())
      ensures f.recordId == "" ==>
                var item := NewItem(f, freshItem, today);
                && stockMovements == old(stockMovements) + [OpeningFor(item, freshMovement, today)]
                && items == RecalculatedItems(old(items) + [item], stockMovements, item.id)
      ensures outcome.Accepted? && f.recordId != "" ==>
                var updated := EditedItem(Find(old(items), f.recordId, ItemKey).value, f);
                match OpeningIndex(old(stockMovements), updated.id)
                case Some(j) =>
                  && stockMovements == old(stockMovements)[j := old(stockMovements)[j].(quantity := updated.openingStock, cost := updated.cost)]
                  && items == Upsert(old(items), updated, ItemKey)
                case None =>
                  && stockMovements == old(stockMovements) + [OpeningFor(updated, freshMovement, today)]
                  && items == RecalculatedItems(Upsert(old(items), updated, ItemKey), stockMovements, updated.id)
      ensures purchases == old(purchases) && sales == old(sales)
      ensures expenses == old(expenses) && ledgerEntries == old(ledgerEntries) && parties == old(parties) && banks == old(banks)
    {
      if f.recordId != "" {
        var existing := Find(items, f.recordId, ItemKey);
        if existing.None? {
          return Rejected(ItemNotFound);
        }
        var updated := EditedItem(existing.value, f);
        UpsertItem(updated);
        var j := OpeningIndex(stockMovements, updated.id);
        if j.Some? {
          var m := stockMovements[j.value];
          stockMovements := stockMovements[j.value := m.(quantity := updated.openingStock, cost := updated.cost)];
        } else {
          AddStockMovement(OpeningFor(updated, freshMovement, today));
        }
      } else {
        var item := NewItem(f, freshItem, today);
        items := items + [item];
        AddStockMovement(OpeningFor(item, freshMovement, item.openingDate));
      }
      return Accepted;
    }

    /**
     * `handleExpenseSubmit(event)`: upserts the expense, retracts every entry
     * mentioning its id and posts the new pair. Nothing is validated.
     */
    method HandleExpenseSubmit(f: ExpenseForm, freshId: Id, entryIds: seq<Id>, today: Date)
      requires |entryIds| >= 2
      modifies this
      ensures var record := ExpenseRecord(f, Existing(old(expenses), f.recordId, ExpenseKey), freshId, today);
        && expenses == Upsert(old(expenses), record, ExpenseKey)
        && ledgerEntries == RemoveReferencing(old(ledgerEntries), record.id) + ExpensePostings(record, entryIds)
      ensures items == old(items) && stockMovements == old(stockMovements) && purchases == old(purchases) && sales == old(sales)
      ensures parties == old(parties) && banks == old(banks)
    {
      var existing := Existing(expenses, f.recordId, ExpenseKey);
      var record := ExpenseRecord(f, existing, freshId, today);
      UpsertExpense(record);
      RemoveLedgerEntriesForReference(record.id);
      RegisterExpenseLedger(record, entryIds);
    }

    /**
     * `handleCashSubmit(event)`: upserts the entry; an edit first undoes the
     * old entry's effect on its bank, then the new entry is applied.
     */
    method HandleCashSubmit(f: CashForm, freshId: Id, today: Date)
      modifies this
      ensures var existing := Existing(old(ledgerEntries), f.recordId, EntryKey);
        var record := CashRecord(f, existing, freshId, today);
        && ledgerEntries == Upsert(old(ledgerEntries), record, EntryKey)
        && banks == AdjustedBanks(if existing.Some? then AdjustedBanks(old(banks), existing.value, -1.0) else old(banks), record, 1.0)
      ensures items == old(items) && stockMovements == old(stockMovements) && purchases == old(purchases) && sales == old(sales)
      ensures expenses == old(expenses) && parties == old(parties)
    {
      var existing := Existing(ledgerEntries, f.recordId, EntryKey);
      var record := CashRecord(f, existing, freshId, today);
      UpsertEntry(record);
      if existing.Some? {
        AdjustBankBalance(existing.value, -1.0);
      }
      AdjustBankBalance(record, 1.0);
    }

    /** `handleLoanSubmit(event)`: upserts a single credit entry; no bank and no other entry changes. */
    method HandleLoanSubmit(f: LoanForm, freshId: Id, today: Date)
      modifies this
      ensures ledgerEntries == Upsert(old(ledgerEntries),
                                      LoanRecord(f, old(parties), Existing(old(ledgerEntries), f.recordId, EntryKey), freshId, today),
                                      EntryKey)
      ensures items == old(items) && stockMovements == old(stockMovements) && purchases == old(purchases) && sales == old(sales)
      ensures expenses == old(expenses) && parties == old(parties) && banks == old(banks)
    {
      var existing := Existing(ledgerEntries, f.recordId, EntryKey);
      var record := LoanRecord(f, parties, existing, freshId, today);
      UpsertEntry(record);
    }
  }

  // ---------------------------------------------------------------------
  // Properties of the handlers' results
  // ---------------------------------------------------------------------

  /** An accepted purchase or sale with a non-negative payment posts a balanced batch worth its total. */
  lemma AcceptedTransactionBalanced(kind: TransactionType, f: TransactionForm, existing: Option<Transaction>, drawn: FreshIds, today: Date, available: real)
    requires |drawn.entries| >= 3
    requires Validate(kind, f.quantity, f.rate, f.payment, available).None? && f.payment >= 0.0
    ensures var record := TransactionRecord(kind, f, existing, drawn.record, today);
      Debits(TransactionPostings(record, kind, drawn.entries)) == Credits(TransactionPostings(record, kind, drawn.entries)) == f.quantity * f.rate
  {
    var record := TransactionRecord(kind, f, existing, drawn.record, today);
    TransactionPostingsBalanced(record, kind, drawn.entries);
  }

  /** The movement a transaction adds is exactly what a later edit of the same record retracts. */
  lemma EditRetractsOwnMovement(kind: TransactionType, record: Transaction, items: seq<Item>, id: Id)
    ensures MatchesTransaction(record, kind, TransactionMovement(kind, record, items, id))
    ensures RemoveMatched([TransactionMovement(kind, record, items, id)], record, kind) == []
  {
    var m := TransactionMovement(kind, record, items, id);
    var ids := MatchedIds([m], record, kind);
    assert m.id in ids;
    assert Filter([m], x => Survives(ids, x)) == [];
  }

  /**
   * An accepted sale never takes its item's stock below zero, provided the
   * movements it retracts did not add stock to the item (a sale's own
   * movement never does).
   */
  lemma AcceptedSaleKeepsStock(ms: seq<Movement>, items: seq<Item>, f: TransactionForm, existing: Option<Transaction>, drawn: FreshIds, today: Date)
    requires Validate(Sale, f.quantity, f.rate, f.payment, StockOf(ms, f.itemId)).None?
    requires existing.Some? ==> StockOf(RemovedMovements(ms, existing.value, Sale), f.itemId) <= 0.0
    ensures var record := TransactionRecord(Sale, f, existing, drawn.record, today);
      var kept := if existing.Some? then RemoveMatched(ms, existing.value, Sale) else ms;
      StockOf(kept + [TransactionMovement(Sale, record, items, drawn.movement)], f.itemId) >= StockOf(ms, f.itemId) - f.quantity >= 0.0
  {
    var record := TransactionRecord(Sale, f, existing, drawn.record, today);
    StockAfterSale(ms, existing, TransactionMovement(Sale, record, items, drawn.movement), f.quantity);
  }

  /**
   * The stock check runs before the edited sale's movement is retracted:
   * with 20 opened and a sale of 5 recorded, editing that sale to 18 is
   * rejected although retracting the old movement would leave 20 available.
   */
  lemma StockCheckPrecedesRetraction()
    ensures var opening := Movement("m-1", "item-1", OpeningMovement, 20.0, 10.0, "d0", Some("item-1"));
      var sale := Transaction("sale-1", "item-1", None, 5.0, 15.0, 75.0, None, "d1", 0.0, None, Some(75.0), None);
      var first := Movement("m-2", "item-1", SaleMovement, -5.0, 10.0, "d1", Some("sale-1"));
      && Validate(Sale, 18.0, 15.0, 0.0, StockOf([opening, first], "item-1")) == Some(InsufficientStock)
      && StockOf(RemoveMatched([opening, first], sale, Sale), "item-1") == 20.0
  {
    SaleEditExample();
    var opening := Movement("m-1", "item-1", OpeningMovement, 20.0, 10.0, "d0", Some("item-1"));
    StockOfOne(opening, "item-1");
  }

  /** Resubmitting an expense replaces its two entries instead of adding two more. */
  lemma ExpenseResubmitReplaces(entries: seq<LedgerEntry>, r: Expense, before: seq<Id>, after: seq<Id>)
    requires |before| >= 2 && |after| >= 2 && r.id != ""
    ensures RemoveReferencing(entries + ExpensePostings(r, before), r.id) + ExpensePostings(r, after)
            == RemoveReferencing(entries, r.id) + ExpensePostings(r, after)
  {
    RetractRemovesExpensePostings(entries, r, before);
  }

  /**
   * A new loan or capital entry adds its amount to the credits and nothing
   * to the debits, so a balanced ledger stops balancing.
   */
  lemma NewLoanUnbalances(entries: seq<LedgerEntry>, f: LoanForm, parties: seq<Party>, freshId: Id, today: Date)
    requires Existing(entries, f.recordId, EntryKey).None?
    requires FindIndex(entries, NewId(f.recordId, freshId), EntryKey).None?
    ensures var after := Upsert(entries, LoanRecord(f, parties, None, freshId, today), EntryKey);
      Debits(after) == Debits(entries) && Credits(after) == Credits(entries) + f.amount
  {
    var record := LoanRecord(f, parties, None, freshId, today);
    TotalsAppend(entries, [record]);
    assert Filter([record], IsDebit) == [];
    assert Filter([record], IsCredit) == [record];
    SumSingleton(record, EntryAmount);
  }
}
