/**
 * The records the bookkeeping engine keeps: inventory items, stock
 * movements, purchases and sales, expenses, ledger entries, parties and
 * banks, plus JavaScript's `String.prototype.includes`, which the engine
 * uses to find the ledger entries that belong to a record.
 *
 * Money and quantities are exact `real`s; dates are opaque ISO strings, with
 * "" standing for an empty form field.
 */
module Records {
  import opened Wrappers

  type Id = string
  type Date = string

  /** An inventory item (`state.items`). */
  datatype Item = Item(
    id: Id, sku: string, name: string, category: string,
    cost: real, openingStock: real, reorder: real, openingDate: Date)

  /** A movement's `type`: 'opening', 'purchase' or 'sale'. */
  datatype MovementType = OpeningMovement | PurchaseMovement | SaleMovement

  /** A stock movement (`state.stockMovements`); sales carry a negative quantity. */
  datatype Movement = Movement(
    id: Id, itemId: Id, kind: MovementType, quantity: real, cost: real,
    date: Date, referenceId: Option<Id>)

  /** Whether a transaction form is a purchase or a sale. */
  datatype TransactionType = Purchase | Sale

  /**
   * A purchase or a sale (`state.purchases` / `state.sales`): a purchase
   * carries `paid`, a sale `received`.
   */
  datatype Transaction = Transaction(
    id: Id, itemId: Id, partyId: Option<Id>, quantity: real, rate: real,
    total: real, dueDate: Option<Date>, date: Date, balance: real,
    paid: Option<real>, received: Option<real>, attachmentId: Option<Id>)

  /** An expense (`state.expenses`). */
  datatype Expense = Expense(
    id: Id, category: Option<string>, amount: real, date: Date,
    partyId: Option<Id>, recurring: bool, frequency: Option<string>,
    attachmentId: Option<Id>)

  /**
   * A ledger entry's `type`. The cash form can submit any type; only these
   * five have a meaning. `OtherType` carries any other name and is never
   * built from "debit", "credit", "deposit", "withdrawal" or "transfer",
   * which are always the named constructors.
   */
  datatype EntryType = Debit | Credit | Deposit | Withdrawal | Transfer | OtherType(name: string)

  /** A ledger entry (`state.ledgerEntries`): postings, cash/bank entries and loan/capital entries alike. */
  datatype LedgerEntry = LedgerEntry(
    id: Id, accountId: Id, kind: EntryType, amount: real, date: Date,
    description: Option<string>, partyId: Option<Id>, interest: Option<real>)

  /** A bank account (`state.banks`). */
  datatype Bank = Bank(id: Id, name: string, balance: real)

  /** A supplier or customer (`state.parties`). */
  datatype Party = Party(id: Id, name: string, partyType: string, email: string)

  /** A stored attachment; its payload is a compressed data URL. */
  datatype Attachment = Attachment(id: Id, name: string, owner: string, linkedId: Id, dataUrl: Option<string>)

  /** The collections the reports read. */
  datatype AppData = AppData(
    items: seq<Item>, stockMovements: seq<Movement>, purchases: seq<Transaction>,
    sales: seq<Transaction>, expenses: seq<Expense>, ledgerEntries: seq<LedgerEntry>,
    parties: seq<Party>, banks: seq<Bank>)

  /** The `id` of each kind of record, as a function value for lookups by id. */
  function ItemKey(x: Item): Id { x.id }
  function MovementKey(x: Movement): Id { x.id }
  function TransactionKey(x: Transaction): Id { x.id }
  function ExpenseKey(x: Expense): Id { x.id }
  function EntryKey(x: LedgerEntry): Id { x.id }
  function BankKey(x: Bank): Id { x.id }
  function PartyKey(x: Party): Id { x.id }

  /** The amount a transaction's payment field holds for its type, `undefined` reading as 0. */
  function Payment(t: Transaction, kind: TransactionType): real {
    if kind == Sale then t.received.GetOr(0.0) else t.paid.GetOr(0.0)
  }

  // ---------------------------------------------------------------------
  // Substring search
  // ---------------------------------------------------------------------

  /** `s.startsWith(prefix)`. */
  predicate IsPrefix(prefix: string, s: string) {
    |prefix| <= |s| && s[..|prefix|] == prefix
  }

  /** `s.includes(sub)`: `sub` occurs at some position of `s`. */
  predicate Contains(s: string, sub: string)
    decreases |s|
  {
    IsPrefix(sub, s) || (|s| > 0 && Contains(s[1..], sub))
  }

  /** `sub` occurs in `s` starting at index `k`. */
  predicate OccursAt(s: string, sub: string, k: int) {
    0 <= k && k + |sub| <= |s| && s[k..k + |sub|] == sub
  }

  /** `Contains` holds exactly when `sub` occurs at some index. */
  lemma {:induction false} ContainsAt(s: string, sub: string)
    ensures Contains(s, sub) <==> exists k :: OccursAt(s, sub, k)
    decreases |s|
  {
    if IsPrefix(sub, s) {
      assert OccursAt(s, sub, 0);
    }
    if |s| > 0 {
      ContainsAt(s[1..], sub);
      if exists k :: OccursAt(s[1..], sub, k) {
        var k :| OccursAt(s[1..], sub, k);
        assert s[1..][k..k + |sub|] == s[k + 1..k + 1 + |sub|];
        assert OccursAt(s, sub, k + 1);
      }
      if exists k :: OccursAt(s, sub, k) {
        var k :| OccursAt(s, sub, k);
        if k > 0 {
          assert s[1..][k - 1..k - 1 + |sub|] == s[k..k + |sub|];
          assert OccursAt(s[1..], sub, k - 1);
        } else {
          assert IsPrefix(sub, s);
        }
      }
    } else {
      if exists k :: OccursAt(s, sub, k) {
        var k :| OccursAt(s, sub, k);
        assert IsPrefix(sub, s);
      }
      if Contains(s, sub) {
        assert OccursAt(s, sub, 0);
      }
    }
  }

  /** A text ending with `sub` contains it: every description a posting writes contains the record's id. */
  lemma {:induction false} ContainsSuffix(prefix: string, sub: string)
    ensures Contains(prefix + sub, sub)
    decreases |prefix|
  {
    if |prefix| == 0 {
      assert prefix + sub == sub;
    } else {
      assert (prefix + sub)[1..] == prefix[1..] + sub;
      ContainsSuffix(prefix[1..], sub);
    }
  }

  /** `entry.description?.includes(id)`: an entry without a description mentions nothing. */
  predicate Mentions(e: LedgerEntry, id: Id) {
    e.description.Some? && Contains(e.description.value, id)
  }

  // ---------------------------------------------------------------------
  // Collections keyed by id
  // ---------------------------------------------------------------------

  /** The first position holding `id`, if any, as `findIndex` by id. */
  function FindIndex<T>(list: seq<T>, id: Id, idOf: T -> Id): (r: Option<nat>)
    ensures r.Some? ==> r.value < |list| && idOf(list[r.value]) == id
    ensures r.Some? ==> forall j :: 0 <= j < r.value ==> idOf(list[j]) != id
    ensures r.None? ==> forall j :: 0 <= j < |list| ==> idOf(list[j]) != id
    decreases |list|
  {
    if |list| == 0 then None
    else if idOf(list[0]) == id then Some(0)
    else match FindIndex(list[1..], id, idOf)
      case None => None
      case Some(k) => Some(k + 1)
  }

  /** The first record holding `id`, if any, as `find` by id. */
  function Find<T>(list: seq<T>, id: Id, idOf: T -> Id): (r: Option<T>)
    ensures r.Some? <==> exists j :: 0 <= j < |list| && idOf(list[j]) == id
    ensures r.Some? ==> r.value in list && idOf(r.value) == id
    ensures r.Some? ==>
      exists k :: 0 <= k < |list| && list[k] == r.value && forall j :: 0 <= j < k ==> idOf(list[j]) != id
  {
    match FindIndex(list, id, idOf)
    case None => None
    case Some(k) => Some(list[k])
  }

  /**
   * `upsertStateRecord(collection, record)`: replaces the first element with
   * the record's id in place, or appends the record when there is none.
   */
  function Upsert<T>(list: seq<T>, record: T, idOf: T -> Id): (r: seq<T>)
    ensures FindIndex(list, idOf(record), idOf).None? ==> r == list + [record]
    ensures FindIndex(list, idOf(record), idOf).Some? ==>
              var k := FindIndex(list, idOf(record), idOf).value;
              |r| == |list| && r[k] == record && forall j :: 0 <= j < |list| && j != k ==> r[j] == list[j]
  {
    match FindIndex(list, idOf(record), idOf)
    case None => list + [record]
    case Some(k) => list[k := record]
  }

  /** After an upsert, looking the id up finds the record just written. */
  lemma UpsertThenFind<T>(list: seq<T>, record: T, idOf: T -> Id)
    ensures Find(Upsert(list, record, idOf), idOf(record), idOf) == Some(record)
  {
    var r := Upsert(list, record, idOf);
    var id := idOf(record);
    match FindIndex(list, id, idOf)
    case None =>
      assert r[|list|] == record;
    case Some(k) =>
      assert r[k] == record;
  }

  /** Upserting the same record twice is upserting it once. */
  lemma UpsertIdempotent<T>(list: seq<T>, record: T, idOf: T -> Id)
    ensures Upsert(Upsert(list, record, idOf), record, idOf) == Upsert(list, record, idOf)
  {
    var r := Upsert(list, record, idOf);
    var id := idOf(record);
    UpsertThenFind(list, record, idOf);
    var k := FindIndex(r, id, idOf).value;
    assert r[k] == record;
    assert r[k := record] == r;
  }

  /** Ids stay unique under upsert. */
  lemma UpsertKeepsIdsUnique<T>(list: seq<T>, record: T, idOf: T -> Id)
    requires forall i, j :: 0 <= i < j < |list| ==> idOf(list[i]) != idOf(list[j])
    ensures var r := Upsert(list, record, idOf);
      forall i, j :: 0 <= i < j < |r| ==> idOf(r[i]) != idOf(r[j])
  {
  }
}
