/**
 * The IndexedDB layer of db.js: nine object stores keyed by `id` (the
 * items store with a unique `sku` index), the upsert/delete calls the
 * engine mirrors its state into, the snapshot export and import used by
 * backups, and the one-time seeding of an empty database.
 *
 * A store is a map from id to record. A write transaction is atomic: when
 * one of its puts fails, nothing it did remains.
 */
module Store {
  import opened Wrappers
  import opened Records

  /** `DB_VERSION`. */
  const DbVersion: int := 2

  /** The nine data stores of `STORE_NAMES`. */
  datatype StoreName =
    | Items | StockMovements | Purchases | Sales | Expenses
    | LedgerEntries | Parties | Banks | Attachments
  {
    /** The store's name in IndexedDB and in snapshot files. */
    function Name(): string {
      match this
      case Items => "items"
      case StockMovements => "stockMovements"
      case Purchases => "purchases"
      case Sales => "sales"
      case Expenses => "expenses"
      case LedgerEntries => "ledgerEntries"
      case Parties => "parties"
      case Banks => "banks"
      case Attachments => "attachments"
    }

    /** Only the items store has a unique index (`sku`). */
    predicate UniqueSku() {
      this == Items
    }
  }

  /** `STORE_NAMES`, in the order import and export visit them. */
  const StoreOrder: seq<StoreName> := [Items, StockMovements, Purchases, Sales, Expenses, LedgerEntries, Parties, Banks, Attachments]

  /** The store a name in a snapshot or a call to `add`/`remove` opens; IndexedDB throws on any other name. */
  function StoreNamed(s: string): (n: Option<StoreName>)
    ensures n.Some? ==> n.value.Name() == s
  {
    if s == "items" then Some(Items)
    else if s == "stockMovements" then Some(StockMovements)
    else if s == "purchases" then Some(Purchases)
    else if s == "sales" then Some(Sales)
    else if s == "expenses" then Some(Expenses)
    else if s == "ledgerEntries" then Some(LedgerEntries)
    else if s == "parties" then Some(Parties)
    else if s == "banks" then Some(Banks)
    else if s == "attachments" then Some(Attachments)
    else None
  }

  /** Each store is opened by its own name, so no two stores share a name. */
  lemma NameRoundTrip(n: StoreName)
    ensures StoreNamed(n.Name()) == Some(n)
  {
  }

  /** `STORE_NAMES` lists every data store. */
  lemma StoreOrderComplete(n: StoreName)
    ensures n in StoreOrder
  {
  }

  /** `META_STORE`: settings and backup bookkeeping, outside the nine data stores. */
  const MetaStore: string := "meta"

  /** A record as any of the stores holds it. */
  datatype Record =
    | StoredItem(item: Item)
    | StoredMovement(movement: Movement)
    | StoredTransaction(transaction: Transaction)
    | StoredExpense(expense: Expense)
    | StoredEntry(entry: LedgerEntry)
    | StoredParty(party: Party)
    | StoredBank(bank: Bank)
    | StoredAttachment(attachment: Attachment)
  {
    /** The key (`keyPath: 'id'`). */
    function Id(): Id {
      match this
      case StoredItem(x) => x.id
      case StoredMovement(x) => x.id
      case StoredTransaction(x) => x.id
      case StoredExpense(x) => x.id
      case StoredEntry(x) => x.id
      case StoredParty(x) => x.id
      case StoredBank(x) => x.id
      case StoredAttachment(x) => x.id
    }

    /** The value the `sku` index sees; only items have one. */
    function Sku(): Option<string> {
      if StoredItem? then Some(item.sku) else None
    }
  }

  /** One object store. */
  type Table = map<Id, Record>

  /** Every record sits under its own id. */
  ghost predicate KeyedById(t: Table) {
    forall k :: k in t ==> t[k].Id() == k
  }

  /** No two records share a sku (`createIndex('sku', 'sku', { unique: true })`). */
  ghost predicate SkusUnique(t: Table) {
    forall a, b :: a in t && b in t && a != b && t[a].Sku().Some? ==> t[a].Sku() != t[b].Sku()
  }

  /** Another record already holds `r`'s sku. */
  predicate SkuClash(t: Table, r: Record) {
    r.Sku().Some? && exists k :: k in t && k != r.Id() && t[k].Sku() == r.Sku()
  }

  /**
   * `store.put(value)`: insert or replace under the record's id; in the
   * items store a put that would give two records one sku fails.
   */
  function Put(t: Table, r: Record, uniqueSku: bool): (result: Option<Table>)
    ensures result.None? <==> uniqueSku && SkuClash(t, r)
    ensures result.Some? ==> result.value == t[r.Id() := r]
  {
    if uniqueSku && SkuClash(t, r) then None else Some(t[r.Id() := r])
  }

  /** The nine stores exist and each is keyed by id; the items store has unique skus. */
  ghost predicate ValidStores(stores: map<StoreName, Table>) {
    && (forall n: StoreName :: n in stores)
    && (forall n :: n in stores ==> KeyedById(stores[n]) && (n.UniqueSku() ==> SkusUnique(stores[n])))
  }

  /** A successful put keeps a table keyed by id and, where checked, sku-unique. */
  lemma PutKeepsValid(t: Table, r: Record, uniqueSku: bool)
    requires KeyedById(t) && (uniqueSku ==> SkusUnique(t))
    requires Put(t, r, uniqueSku).Some?
    ensures KeyedById(Put(t, r, uniqueSku).value)
    ensures uniqueSku ==> SkusUnique(Put(t, r, uniqueSku).value)
  {
  }

  // ---------------------------------------------------------------------
  // Snapshots as JSON values
  // ---------------------------------------------------------------------

  /** A parsed JSON value; a record is an object with an `id`. */
  datatype Json =
    | JNull
    | JBool(b: bool)
    | JNum(n: real)
    | JStr(s: string)
    | JArray(elems: seq<Json>)
    | JObject(fields: map<string, Json>)
    | JRecord(r: Record)

  /** JavaScript truthiness. */
  predicate Truthy(v: Json) {
    match v
    case JNull => false
    case JBool(b) => b
    case JNum(n) => n != 0.0
    case JStr(s) => s != ""
    case _ => true
  }

  /** `typeof v === 'object'` for a value that is not `null`. */
  predicate IsObject(v: Json) {
    v.JArray? || v.JObject? || v.JRecord?
  }

  /** `v[name]`; `None` is `undefined`. Arrays, records and primitives have no store-named property. */
  function Field(v: Json, name: string): (r: Option<Json>)
    ensures r.Some? <==> v.JObject? && name in v.fields
  {
    if v.JObject? && name in v.fields then Some(v.fields[name]) else None
  }

  /** `Utils.ensureArray(value)`: the elements of an array, nothing for anything else. */
  function EnsureArray(v: Option<Json>): (es: seq<Json>)
    ensures v.Some? && v.value.JArray? ==> es == v.value.elems
    ensures !(v.Some? && v.value.JArray?) ==> es == []
  {
    if v.Some? && v.value.JArray? then v.value.elems else []
  }

  /** `(snapshot.data ? snapshot : { data: snapshot }).data`. */
  function DataOf(snapshot: Json): Json {
    var d := Field(snapshot, "data");
    if d.Some? && Truthy(d.value) then d.value else snapshot
  }

  /** The time an import resolves to: the snapshot's truthy `exportedAt`, else now; a snapshot without a truthy `data` field is wrapped and so has none. */
  function ExportedAt(snapshot: Json, now: string): (at: Json)
    ensures at == JStr(now) || (Field(snapshot, "exportedAt").Some? && at == Field(snapshot, "exportedAt").value && Truthy(at))
    ensures var d := Field(snapshot, "data"); var e := Field(snapshot, "exportedAt");
      d.Some? && Truthy(d.value) && e.Some? && Truthy(e.value) ==> at == e.value
    ensures var d := Field(snapshot, "data"); var e := Field(snapshot, "exportedAt");
      !(d.Some? && Truthy(d.value) && e.Some? && Truthy(e.value)) ==> at == JStr(now)
  {
    var d := Field(snapshot, "data");
    var at := Field(snapshot, "exportedAt");
    if d.Some? && Truthy(d.value) && at.Some? && Truthy(at.value) then at.value else JStr(now)
  }

  /**
   * The elements `forEach` gets to put: those before the first element that
   * is not a record. `put` of a value without an `id` key throws a
   * DataError on the spot, which ends the loop (and the import).
   */
  function Issued(vs: seq<Json>): (r: seq<Json>)
    ensures |r| <= |vs|
    ensures forall i :: 0 <= i < |r| ==> r[i] == vs[i] && r[i].JRecord?
    ensures |r| < |vs| ==> !vs[|r|].JRecord?
  {
    vs[..FirstNonRecord(vs)]
  }

  /** The position of the first element that is not a record (the length when there is none). */
  function FirstNonRecord(vs: seq<Json>): (k: nat)
    ensures k <= |vs|
    ensures forall i :: 0 <= i < k ==> vs[i].JRecord?
    ensures k < |vs| ==> !vs[k].JRecord?
    decreases |vs|
  {
    if |vs| == 0 || !vs[0].JRecord? then 0 else 1 + FirstNonRecord(vs[1..])
  }

  /** An array of records is issued in full. */
  lemma IssuedAllRecords(vs: seq<Json>)
    requires forall i :: 0 <= i < |vs| ==> vs[i].JRecord?
    ensures Issued(vs) == vs
  {
    if FirstNonRecord(vs) < |vs| {
      assert false;
    }
    assert vs[..|vs|] == vs;
  }

  /** Putting the elements in order into one store; a non-record element or a sku clash fails the whole lot. */
  function PutAll(t: Table, vs: seq<Json>, uniqueSku: bool): Option<Table>
    decreases |vs|
  {
    if |vs| == 0 then Some(t)
    else if !vs[0].JRecord? then None
    else match Put(t, vs[0].r, uniqueSku)
      case None => None
      case Some(t') => PutAll(t', vs[1..], uniqueSku)
  }


  /** A successful run of puts keeps a table keyed by id and, where checked, sku-unique. */
  lemma {:induction false} PutAllKeepsValid(t: Table, vs: seq<Json>, uniqueSku: bool)
    requires KeyedById(t) && (uniqueSku ==> SkusUnique(t))
    requires PutAll(t, vs, uniqueSku).Some?
    ensures KeyedById(PutAll(t, vs, uniqueSku).value)
    ensures uniqueSku ==> SkusUnique(PutAll(t, vs, uniqueSku).value)
    decreases |vs|
  {
    if |vs| > 0 {
      PutKeepsValid(t, vs[0].r, uniqueSku);
      PutAllKeepsValid(Put(t, vs[0].r, uniqueSku).value, vs[1..], uniqueSku);
    }
  }

  /** Of several records with one id, the last one put is the one kept. */
  lemma {:induction false} PutAllLastWins(t: Table, vs: seq<Json>, uniqueSku: bool, k: nat)
    requires PutAll(t, vs, uniqueSku).Some?
    requires k < |vs| && vs[k].JRecord?
    requires forall j :: k < j < |vs| && vs[j].JRecord? ==> vs[j].r.Id() != vs[k].r.Id()
    ensures vs[k].r.Id() in PutAll(t, vs, uniqueSku).value
    ensures PutAll(t, vs, uniqueSku).value[vs[k].r.Id()] == vs[k].r
    decreases |vs|
  {
    var t' := Put(t, vs[0].r, uniqueSku).value;
    if k == 0 {
      PutAllKeepsUntouched(t', vs[1..], uniqueSku, vs[0].r.Id());
    } else {
      PutAllLastWins(t', vs[1..], uniqueSku, k - 1);
    }
  }

  /** A key that no later record carries keeps its value through the puts. */
  lemma {:induction false} PutAllKeepsUntouched(t: Table, vs: seq<Json>, uniqueSku: bool, id: Id)
    requires PutAll(t, vs, uniqueSku).Some? && id in t
    requires forall j :: 0 <= j < |vs| && vs[j].JRecord? ==> vs[j].r.Id() != id
    ensures id in PutAll(t, vs, uniqueSku).value && PutAll(t, vs, uniqueSku).value[id] == t[id]
    decreases |vs|
  {
    if |vs| > 0 {
      PutAllKeepsUntouched(Put(t, vs[0].r, uniqueSku).value, vs[1..], uniqueSku, id);
    }
  }

  /** The array a snapshot's data lists for a store (empty when missing or not an array). */
  function StoreArray(data: Json, n: StoreName): seq<Json> {
    EnsureArray(Field(data, n.Name()))
  }

  /** The puts one listed store's array issues, from the cleared store: the table they build, or `None` on a sku clash. */
  function StorePuts(data: Json, n: StoreName): Option<Table> {
    PutAll(map[], Issued(StoreArray(data, n)), n.UniqueSku())
  }

  /** The store's array holds an element that is not a record, so its `put` throws. */
  predicate StoreHalts(data: Json, n: StoreName) {
    |Issued(StoreArray(data, n))| < |StoreArray(data, n)|
  }

  /**
   * What the import transaction does to the listed stores. A put that
   * fails on the unique sku index aborts the transaction, so nothing
   * changes. A put that throws a DataError ends the loop there; the
   * transaction is not aborted, so the stores replaced so far and the
   * puts already issued to the current store commit. Otherwise every
   * listed store is replaced.
   */
  datatype ImportOutcome =
    | RolledBack
    | Halted(written: map<StoreName, Table>)
    | Completed(written: map<StoreName, Table>)

  /** The outcome of the import of the listed stores, in order. */
  function ImportStores(data: Json, names: seq<StoreName>): ImportOutcome
    decreases |names|
  {
    if |names| == 0 then Completed(map[])
    else match StorePuts(data, names[0])
      case None => RolledBack
      case Some(t) =>
        if StoreHalts(data, names[0]) then Halted(map[names[0] := t])
        else Prepend(map[names[0] := t], ImportStores(data, names[1..]))
  }

  /** The stores written before an outcome, added under it. */
  function Prepend(w: map<StoreName, Table>, o: ImportOutcome): ImportOutcome {
    match o
    case RolledBack => RolledBack
    case Halted(r) => Halted(w + r)
    case Completed(r) => Completed(w + r)
  }

  /** A completed import writes exactly the listed stores, each keyed by id, the items store sku-unique. */
  lemma {:induction false} ImportStoresShape(data: Json, names: seq<StoreName>)
    requires ImportStores(data, names).Completed?
    ensures forall n :: n in ImportStores(data, names).written <==> n in names
    ensures forall n :: n in ImportStores(data, names).written ==>
              KeyedById(ImportStores(data, names).written[n]) &&
              (n.UniqueSku() ==> SkusUnique(ImportStores(data, names).written[n]))
    decreases |names|
  {
    if |names| > 0 {
      var n := names[0];
      PutAllKeepsValid(map[], Issued(StoreArray(data, n)), n.UniqueSku());
      ImportStoresShape(data, names[1..]);
      assert forall m :: m in names <==> m == n || m in names[1..];
    }
  }

  /** Importing every store yields a valid set of stores: import keeps the database's invariant. */
  lemma ImportKeepsValid(data: Json)
    requires ImportStores(data, StoreOrder).Completed?
    ensures ValidStores(ImportStores(data, StoreOrder).written)
  {
    ImportStoresShape(data, StoreOrder);
    forall n: StoreName ensures n in ImportStores(data, StoreOrder).written {
      StoreOrderComplete(n);
    }
  }

  /**
   * A halted import replaced every store before the halting one, holds in
   * the halting one what its puts issued before the element that threw,
   * and wrote no later store.
   */
  lemma {:induction false} HaltedShape(data: Json, names: seq<StoreName>)
    requires ImportStores(data, names).Halted?
    ensures exists i :: 0 <= i < |names| && StoreHalts(data, names[i]) &&
              HaltedAt(data, names, i, ImportStores(data, names).written)
    decreases |names|
  {
    assert |names| > 0;
    var n := names[0];
    var t := StorePuts(data, n).value;
    if StoreHalts(data, n) {
      assert ImportStores(data, names).written == map[n := t];
      assert names[..1] == [n];
      assert HaltedAt(data, names, 0, map[n := t]);
    } else {
      var rest := ImportStores(data, names[1..]);
      assert rest.Halted?;
      assert ImportStores(data, names).written == map[n := t] + rest.written;
      HaltedShape(data, names[1..]);
      var i :| 0 <= i < |names[1..]| && StoreHalts(data, names[1..][i]) && HaltedAt(data, names[1..], i, rest.written);
      HaltedAtCons(data, names, i, t, rest.written);
    }
  }

  /** A store that ran to the end, written before a halt further on, extends what the halt leaves written. */
  lemma HaltedAtCons(data: Json, names: seq<StoreName>, i: nat, t: Table, w: map<StoreName, Table>)
    requires |names| > 0 && StorePuts(data, names[0]) == Some(t) && !StoreHalts(data, names[0])
    requires HaltedAt(data, names[1..], i, w)
    ensures HaltedAt(data, names, i + 1, map[names[0] := t] + w)
  {
    var n := names[0];
    var merged := map[n := t] + w;
    assert names[..i + 2] == [n] + names[1..][..i + 1];
    forall m | m in merged ensures StorePuts(data, m) == Some(merged[m]) {
      if m in w {
        assert merged[m] == w[m];
      }
    }
    forall j | 0 <= j < i + 1 ensures !StoreHalts(data, names[j]) {
      if j > 0 {
        assert names[j] == names[1..][j - 1];
      }
    }
  }

  /**
   * `w` is what a halt at the `i`-th store leaves written: exactly the
   * stores up to it, each holding the table its issued puts build, and
   * every store before it ran to the end of its array.
   */
  ghost predicate HaltedAt(data: Json, names: seq<StoreName>, i: nat, w: map<StoreName, Table>) {
    && i < |names|
    && (forall n :: n in w <==> n in names[..i + 1])
    && (forall n :: n in w ==> StorePuts(data, n) == Some(w[n]))
    && (forall j :: 0 <= j < i ==> !StoreHalts(data, names[j]))
  }

  /** `{"data": {"items": [42]}}`: the put of 42 throws, and the cleared items store is all that commits. */
  lemma ImportOfNonRecordEmptiesItems()
    ensures var s := JObject(map["data" := JObject(map["items" := JArray([JNum(42.0)])])]);
      ImportStores(DataOf(s), StoreOrder) == Halted(map[Items := map[]])
  {
    var s := JObject(map["data" := JObject(map["items" := JArray([JNum(42.0)])])]);
    var data := JObject(map["items" := JArray([JNum(42.0)])]);
    assert DataOf(s) == data;
    assert StoreArray(data, Items) == [JNum(42.0)];
    assert Issued([JNum(42.0)]) == [];
  }

  /** The outcome of `importSnapshot`. */
  datatype ImportResult =
    | InvalidSnapshot          // thrown before the transaction: 'Invalid snapshot'
    | Aborted                  // a put failed on the sku index; the transaction rolled back
    | PartlyImported           // a put threw a DataError; what was issued before it commits
    | Imported(at: Json)       // resolved with `exportedAt` or the current time

  /** `vs` lists exactly the records of `t`, each once. */
  ghost predicate ListsTable(vs: seq<Json>, t: Table) {
    && |vs| == |t|
    && (forall i :: 0 <= i < |vs| ==> vs[i].JRecord? && vs[i].r.Id() in t && t[vs[i].r.Id()] == vs[i].r)
    && (forall i, j :: 0 <= i < j < |vs| ==> vs[i].r.Id() != vs[j].r.Id())
    && (forall k :: k in t ==> exists i :: 0 <= i < |vs| && vs[i].r.Id() == k)
  }

  /** The data object of an export: each store's name maps to an array listing that store. */
  ghost predicate ListsStores(data: Json, stores: map<StoreName, Table>) {
    && data.JObject?
    && forall n: StoreName ::
         && n in stores && n.Name() in data.fields
         && data.fields[n.Name()].JArray?
         && ListsTable(data.fields[n.Name()].elems, stores[n])
  }

  /** The shape `exportSnapshot` returns for the given stores. */
  ghost predicate IsExportOf(s: Json, stores: map<StoreName, Table>, now: string) {
    && s.JObject?
    && "version" in s.fields && s.fields["version"] == JNum(DbVersion as real)
    && "exportedAt" in s.fields && s.fields["exportedAt"] == JStr(now)
    && "data" in s.fields && ListsStores(s.fields["data"], stores)
  }

  /** Re-putting a store's records into a part of that store rebuilds the whole store. */
  lemma {:induction false} PutAllRestores(acc: Table, vs: seq<Json>, t: Table, uniqueSku: bool)
    requires KeyedById(t) && (uniqueSku ==> SkusUnique(t))
    requires forall k :: k in acc ==> k in t && acc[k] == t[k]
    requires forall i :: 0 <= i < |vs| ==> vs[i].JRecord? && vs[i].r.Id() in t && t[vs[i].r.Id()] == vs[i].r
    requires forall k :: k in t ==> k in acc || exists i :: 0 <= i < |vs| && vs[i].r.Id() == k
    ensures PutAll(acc, vs, uniqueSku) == Some(t)
    decreases |vs|
  {
    if |vs| == 0 {
      assert acc.Keys == t.Keys;
      assert acc == t;
    } else {
      var r := vs[0].r;
      var acc' := acc[r.Id() := r];
      forall k | k in t ensures k in acc' || exists i :: 0 <= i < |vs[1..]| && vs[1..][i].r.Id() == k {
        if k !in acc' {
          var i :| 0 <= i < |vs| && vs[i].r.Id() == k;
          assert vs[1..][i - 1].r.Id() == k;
        }
      }
      PutAllRestores(acc', vs[1..], t, uniqueSku);
    }
  }

  /** After a completed import, each listed store holds what its own array builds. */
  lemma {:induction false} ImportStoresLookup(data: Json, names: seq<StoreName>, m: StoreName)
    requires ImportStores(data, names).Completed? && m in names
    ensures m in ImportStores(data, names).written
    ensures StorePuts(data, m) == Some(ImportStores(data, names).written[m])
    decreases |names|
  {
    var n := names[0];
    if m in names[1..] {
      ImportStoresLookup(data, names[1..], m);
    } else {
      ImportStoresShape(data, names[1..]);
    }
  }

  /** Nothing written before an outcome leaves it as it is. */
  lemma PrependNothing(o: ImportOutcome)
    ensures Prepend(map[], o) == o
  {
    match o
    case RolledBack =>
    case Halted(r) => assert map[] + r == r;
    case Completed(r) => assert map[] + r == r;
  }

  /** A sku clash in a store's puts rolls the whole import back. */
  lemma ImportStepClashes(data: Json, names: seq<StoreName>, written: map<StoreName, Table>)
    requires |names| > 0 && StorePuts(data, names[0]).None?
    ensures Prepend(written, ImportStores(data, names)) == RolledBack
  {
  }

  /** A store whose array throws ends the import with that store's issued puts written last. */
  lemma ImportStepHalts(data: Json, names: seq<StoreName>, written: map<StoreName, Table>)
    requires |names| > 0 && StorePuts(data, names[0]).Some? && StoreHalts(data, names[0])
    ensures Prepend(written, ImportStores(data, names)) == Halted(written[names[0] := StorePuts(data, names[0]).value])
  {
    UpdateThenUnion(written, names[0], StorePuts(data, names[0]).value, map[]);
    assert written[names[0] := StorePuts(data, names[0]).value] + map[]
           == written[names[0] := StorePuts(data, names[0]).value];
  }

  /** One store's puts running to the end of its array: the import writes that table before the rest. */
  lemma ImportStepWrites(data: Json, names: seq<StoreName>, written: map<StoreName, Table>)
    requires |names| > 0 && StorePuts(data, names[0]).Some? && !StoreHalts(data, names[0])
    ensures Prepend(written, ImportStores(data, names))
              == Prepend(written[names[0] := StorePuts(data, names[0]).value], ImportStores(data, names[1..]))
  {
    var n := names[0];
    var t := StorePuts(data, n).value;
    match ImportStores(data, names[1..])
    case RolledBack =>
    case Halted(rest) => UpdateThenUnion(written, n, t, rest);
    case Completed(rest) => UpdateThenUnion(written, n, t, rest);
  }

  /** Writing a key and then the rest is the same as writing both at once. */
  lemma UpdateThenUnion<K, V>(written: map<K, V>, k: K, v: V, rest: map<K, V>)
    ensures written + (map[k := v] + rest) == written[k := v] + rest
  {
  }

  /** The array an export lists for a store puts back exactly that store. */
  lemma ExportedStoreRestored(data: Json, stores: map<StoreName, Table>, n: StoreName)
    requires ValidStores(stores) && ListsStores(data, stores)
    ensures StorePuts(data, n) == Some(stores[n]) && !StoreHalts(data, n)
  {
    IssuedAllRecords(data.fields[n.Name()].elems);
    PutAllRestores(map[], data.fields[n.Name()].elems, stores[n], n.UniqueSku());
  }

  /** Importing an export completes: every array lists a valid store, so no put fails or throws. */
  lemma {:induction false} ImportRestores(data: Json, names: seq<StoreName>, stores: map<StoreName, Table>)
    requires ValidStores(stores) && ListsStores(data, stores)
    ensures ImportStores(data, names).Completed?
    decreases |names|
  {
    if |names| > 0 {
      var n := names[0];
      ExportedStoreRestored(data, stores, n);
      ImportRestores(data, names[1..], stores);
    }
  }

  /**
   * `importSnapshot(exportSnapshot())` brings back every store as it was,
   * and reports the export's time: the export lists each store in full and
   * ids are unique keys.
   */
  lemma ExportImportRoundTrip(s: Json, stores: map<StoreName, Table>, now: string, later: string)
    requires ValidStores(stores) && IsExportOf(s, stores, now) && now != ""
    ensures IsObject(s)
    ensures ImportStores(DataOf(s), StoreOrder) == Completed(stores)
    ensures ExportedAt(s, later) == JStr(now)
  {
    var data := s.fields["data"];
    assert DataOf(s) == data;
    forall n: StoreName ensures n in StoreOrder {
      StoreOrderComplete(n);
    }
    ImportOfExport(data, StoreOrder, stores);
  }

  /** Importing, in any order that visits every store, the data an export lists rebuilds the stores. */
  lemma ImportOfExport(data: Json, order: seq<StoreName>, stores: map<StoreName, Table>)
    requires ValidStores(stores) && ListsStores(data, stores)
    requires forall n: StoreName :: n in order
    ensures ImportStores(data, order) == Completed(stores)
  {
    ImportRestores(data, order, stores);
    var r := ImportStores(data, order).written;
    forall n: StoreName ensures n in r && r[n] == stores[n] {
      ImportStoresLookup(data, order, n);
      ExportedStoreRestored(data, stores, n);
    }
    SameOnEveryStore(r, stores);
  }

  /** Two maps that hold every store name, with the same table under each, are equal. */
  lemma SameOnEveryStore(r: map<StoreName, Table>, stores: map<StoreName, Table>)
    requires forall n: StoreName :: n in r && n in stores && r[n] == stores[n]
    ensures r == stores
  {
    assert r.Keys == stores.Keys;
  }

  /**
   * The puts of one store of an import, from the cleared store, in order
   * until an element that is not a record: the table they build (`None`
   * on a sku clash) and whether such an element stopped them.
   */
  method PutElements(elems: seq<Json>, uniqueSku: bool) returns (table: Option<Table>, halted: bool)
    ensures table == PutAll(map[], Issued(elems), uniqueSku)
    ensures table.Some? ==> (halted <==> |Issued(elems)| < |elems|)
  {
    ghost var k := FirstNonRecord(elems);
    var t: Table := map[];
    var j := 0;
    while j < |elems| && elems[j].JRecord?
      invariant j <= k
      invariant PutAll(map[], Issued(elems), uniqueSku) == PutAll(t, elems[j..k], uniqueSku)
      decreases |elems| - j
    {
      assert j < k;
      assert elems[j..k][0] == elems[j] && elems[j..k][1..] == elems[j + 1..k];
      var put := Put(t, elems[j].r, uniqueSku);
      if put.None? {
        return None, false;
      }
      t := put.value;
      j := j + 1;
    }
    assert j == k;
    return Some(t), j < |elems|;
  }

  /** Each record of `rs` that no later record overwrites sits in `t` under its id. */
  ghost predicate HoldsLast(t: Table, rs: seq<Record>) {
    forall i :: 0 <= i < |rs| && (forall j :: i < j < |rs| ==> rs[j].Id() != rs[i].Id()) ==>
      rs[i].Id() in t && t[rs[i].Id()] == rs[i]
  }

  /** Every record of `before` whose id no record of `rs` carries is still in `t`, unchanged. */
  ghost predicate KeepsOthers(before: Table, t: Table, rs: seq<Record>) {
    forall k :: k in before && (forall i :: 0 <= i < |rs| ==> rs[i].Id() != k) ==> k in t && t[k] == before[k]
  }

  /** One more put keeps the last-wins reading: the new record is the last of its id. */
  lemma PutKeepsLast(before: Table, t: Table, rs: seq<Record>, r: Record)
    requires HoldsLast(t, rs) && KeepsOthers(before, t, rs)
    ensures HoldsLast(t[r.Id() := r], rs + [r]) && KeepsOthers(before, t[r.Id() := r], rs + [r])
  {
    PutHoldsLast(t, rs, r);
    PutKeepsOthers(before, t, rs, r);
  }

  lemma PutHoldsLast(t: Table, rs: seq<Record>, r: Record)
    requires HoldsLast(t, rs)
    ensures HoldsLast(t[r.Id() := r], rs + [r])
  {
    var rs' := rs + [r];
    var t' := t[r.Id() := r];
    forall i | 0 <= i < |rs'| && (forall j :: i < j < |rs'| ==> rs'[j].Id() != rs'[i].Id())
      ensures rs'[i].Id() in t' && t'[rs'[i].Id()] == rs'[i]
    {
      if i < |rs| {
        var x := rs[i];
        assert rs'[i] == x;
        assert rs'[|rs|] == r;
        assert r.Id() != x.Id();
        forall j | i < j < |rs| ensures rs[j].Id() != x.Id() {
          assert rs'[j] == rs[j];
        }
        assert x.Id() in t && t[x.Id()] == x;
      }
    }
  }

  lemma PutKeepsOthers(before: Table, t: Table, rs: seq<Record>, r: Record)
    requires KeepsOthers(before, t, rs)
    ensures KeepsOthers(before, t[r.Id() := r], rs + [r])
  {
    var rs' := rs + [r];
    forall k | k in before && (forall i :: 0 <= i < |rs'| ==> rs'[i].Id() != k)
      ensures k in t[r.Id() := r] && t[r.Id() := r][k] == before[k]
    {
      assert rs'[|rs|] == r;
      forall i | 0 <= i < |rs| ensures rs[i].Id() != k {
        assert rs'[i] == rs[i];
      }
    }
  }

  function PartyRecords(ps: seq<Party>): seq<Record> { seq(|ps|, i requires 0 <= i < |ps| => StoredParty(ps[i])) }
  function ItemRecords(xs: seq<Item>): seq<Record> { seq(|xs|, i requires 0 <= i < |xs| => StoredItem(xs[i])) }
  function BankRecords(bs: seq<Bank>): seq<Record> { seq(|bs|, i requires 0 <= i < |bs| => StoredBank(bs[i])) }
  function ExpenseRecords(es: seq<Expense>): seq<Record> { seq(|es|, i requires 0 <= i < |es| => StoredExpense(es[i])) }
  function TransactionRecords(ts: seq<Transaction>): seq<Record> { seq(|ts|, i requires 0 <= i < |ts| => StoredTransaction(ts[i])) }
  function MovementRecords(ms: seq<Movement>): seq<Record> { seq(|ms|, i requires 0 <= i < |ms| => StoredMovement(ms[i])) }

  /** The puts of a batch of records in order: the table they leave, or `None` when one fails. */
  function PutRecords(t: Table, rs: seq<Record>, uniqueSku: bool): Option<Table>
    decreases |rs|
  {
    if |rs| == 0 then Some(t)
    else match Put(t, rs[0], uniqueSku)
      case None => None
      case Some(t') => PutRecords(t', rs[1..], uniqueSku)
  }

  /** The seeding's item puts into `t` go through without a sku clash. */
  predicate ItemsFit(t: Table, items: seq<Item>) {
    PutRecords(t, ItemRecords(items), true).Some?
  }

  /** Without the sku index no put fails, so every batch goes through. */
  lemma {:induction false} PutRecordsUnchecked(t: Table, rs: seq<Record>)
    ensures PutRecords(t, rs, false).Some?
    decreases |rs|
  {
    if |rs| > 0 {
      PutRecordsUnchecked(t[rs[0].Id() := rs[0]], rs[1..]);
    }
  }

  /**
   * A batch whose skus are pairwise distinct and held by no record of the
   * table never clashes on the sku index.
   */
  lemma {:induction false} DistinctSkusFit(t: Table, rs: seq<Record>)
    requires forall k, i :: k in t && 0 <= i < |rs| && rs[i].Sku().Some? ==> t[k].Sku() != rs[i].Sku()
    requires forall i, j :: 0 <= i < j < |rs| && rs[i].Sku().Some? ==> rs[i].Sku() != rs[j].Sku()
    ensures PutRecords(t, rs, true).Some?
    decreases |rs|
  {
    if |rs| > 0 {
      var r := rs[0];
      var t' := t[r.Id() := r];
      assert !SkuClash(t, r) by {
        forall k | k in t && r.Sku().Some? ensures t[k].Sku() != r.Sku() {
          assert rs[0] == r;
        }
      }
      forall k, i | k in t' && 0 <= i < |rs[1..]| && rs[1..][i].Sku().Some? ensures t'[k].Sku() != rs[1..][i].Sku() {
        assert rs[1..][i] == rs[i + 1];
      }
      forall i, j | 0 <= i < j < |rs[1..]| && rs[1..][i].Sku().Some? ensures rs[1..][i].Sku() != rs[1..][j].Sku() {
        assert rs[1..][i] == rs[i + 1] && rs[1..][j] == rs[j + 1];
      }
      DistinctSkusFit(t', rs[1..]);
    }
  }

  /**
   * One store's batch of puts inside the seeding write
   * transaction: all puts in order, or a failure (a sku clash, possible only
   * in the items store).
   */
  method PutBatch(stores: map<StoreName, Table>, name: StoreName, records: seq<Record>) returns (ok: bool, next: map<StoreName, Table>)
    requires ValidStores(stores)
    ensures ValidStores(next)
    ensures ok ==> forall n :: n != name ==> next[n] == stores[n]
    ensures ok ==> CoversIds(stores[name], next[name], records)
    ensures ok ==> HoldsLast(next[name], records) && KeepsOthers(stores[name], next[name], records)
    ensures !ok ==> next == stores && name.UniqueSku()
    ensures ok <==> PutRecords(stores[name], records, name.UniqueSku()).Some?
    ensures ok ==> next[name] == PutRecords(stores[name], records, name.UniqueSku()).value
  {
    var table := stores[name];
    for i := 0 to |records|
      invariant KeyedById(table) && (name.UniqueSku() ==> SkusUnique(table))
      invariant PutRecords(stores[name], records, name.UniqueSku()) == PutRecords(table, records[i..], name.UniqueSku())
      invariant CoversIds(stores[name], table, records[..i])
      invariant HoldsLast(table, records[..i])
      invariant KeepsOthers(stores[name], table, records[..i])
    {
      assert records[..i + 1] == records[..i] + [records[i]];
      assert records[i..][1..] == records[i + 1..];
      var put := Put(table, records[i], name.UniqueSku());
      if put.None? {
        return false, stores;
      }
      PutKeepsValid(table, records[i], name.UniqueSku());
      PutKeepsLast(stores[name], table, records[..i], records[i]);
      PutCoversIds(stores[name], table, records[..i], records[i]);
      table := put.value;
    }
    assert records[..|records|] == records && records[|records|..] == [];
    next := stores[name := table];
    return true, next;
  }

  /**
   * Every record's id is in `t`; every key of `t` was in `before` or is the
   * id of a record; no key of `before` is lost.
   */
  ghost predicate CoversIds(before: Table, t: Table, rs: seq<Record>) {
    && (forall i :: 0 <= i < |rs| ==> rs[i].Id() in t)
    && (forall k :: k in t ==> k in before || exists i :: 0 <= i < |rs| && rs[i].Id() == k)
    && (forall k :: k in before ==> k in t)
  }

  /** One more put keeps the ids covered. */
  lemma PutCoversIds(before: Table, t: Table, rs: seq<Record>, r: Record)
    requires CoversIds(before, t, rs)
    ensures CoversIds(before, t[r.Id() := r], rs + [r])
  {
    var rs' := rs + [r];
    assert rs'[|rs|] == r;
    assert forall i :: 0 <= i < |rs| ==> rs'[i] == rs[i];
    forall k | k in t[r.Id() := r] ensures k in before || exists i :: 0 <= i < |rs'| && rs'[i].Id() == k {
      if k != r.Id() && k !in before {
        var i :| 0 <= i < |rs| && rs[i].Id() == k;
        assert rs'[i].Id() == k;
      }
    }
  }

  /** The first half of the seeding transaction: parties, items and banks; only the items can clash. */
  method SeedCatalog(stores: map<StoreName, Table>, parties: seq<Party>, items: seq<Item>, banks: seq<Bank>)
    returns (ok: bool, next: map<StoreName, Table>)
    requires ValidStores(stores)
    ensures ValidStores(next)
    ensures ok ==> forall n :: n != Parties && n != Items && n != Banks ==> next[n] == stores[n]
    ensures ok ==> forall i :: 0 <= i < |items| ==> items[i].id in next[Items]
    ensures ok ==> forall k :: k in next[Items] ==> k in stores[Items] || exists i :: 0 <= i < |items| && items[i].id == k
    ensures ok ==> HoldsLast(next[Parties], PartyRecords(parties)) && HoldsLast(next[Items], ItemRecords(items))
                   && HoldsLast(next[Banks], BankRecords(banks))
    ensures !ok ==> next == stores
    ensures ok <==> ItemsFit(stores[Items], items)
  {
    next := stores;
    ok, next := PutBatch(next, Parties, PartyRecords(parties));
    ghost var withParties := next;
    var itemRecords := ItemRecords(items);
    assert forall i :: 0 <= i < |items| ==> itemRecords[i].Id() == items[i].id;
    assert next[Items] == stores[Items];
    ok, next := PutBatch(next, Items, itemRecords);
    if !ok {
      return false, stores;
    }
    ghost var catalog := next;
    assert catalog[Parties] == withParties[Parties];
    ok, next := PutBatch(next, Banks, BankRecords(banks));
    assert next[Items] == catalog[Items] && next[Parties] == catalog[Parties];
  }

  /** The second half: expenses, purchases, sales and stock movements, none of which can clash. */
  method SeedHistory(stores: map<StoreName, Table>, expenses: seq<Expense>, purchases: seq<Transaction>,
                     sales: seq<Transaction>, movements: seq<Movement>) returns (next: map<StoreName, Table>)
    requires ValidStores(stores)
    ensures ValidStores(next)
    ensures forall n :: n != Expenses && n != Purchases && n != Sales && n != StockMovements ==> next[n] == stores[n]
    ensures forall i :: 0 <= i < |movements| ==> movements[i].id in next[StockMovements]
    ensures HoldsLast(next[Expenses], ExpenseRecords(expenses)) && HoldsLast(next[Purchases], TransactionRecords(purchases))
    ensures HoldsLast(next[Sales], TransactionRecords(sales)) && HoldsLast(next[StockMovements], MovementRecords(movements))
  {
    var ok: bool;
    next := stores;
    ok, next := PutBatch(next, Expenses, ExpenseRecords(expenses));
    ghost var s1 := next;
    ok, next := PutBatch(next, Purchases, TransactionRecords(purchases));
    ghost var s2 := next;
    assert s2[Expenses] == s1[Expenses];
    ok, next := PutBatch(next, Sales, TransactionRecords(sales));
    ghost var s3 := next;
    assert s3[Expenses] == s1[Expenses] && s3[Purchases] == s2[Purchases];
    var movementRecords := MovementRecords(movements);
    assert forall i :: 0 <= i < |movements| ==> movementRecords[i].Id() == movements[i].id;
    ok, next := PutBatch(next, StockMovements, movementRecords);
    assert next[Expenses] == s1[Expenses] && next[Purchases] == s2[Purchases] && next[Sales] == s3[Sales];
  }

  /**
   * What a committed seeding leaves behind: the ledger and attachment stores
   * untouched, every item and movement id stored, no item that was not
   * seeded, and in each of the seven seeded stores the last record of every id.
   */
  ghost predicate Seeded(before: map<StoreName, Table>, after: map<StoreName, Table>, parties: seq<Party>, items: seq<Item>,
                         banks: seq<Bank>, expenses: seq<Expense>, purchases: seq<Transaction>, sales: seq<Transaction>,
                         movements: seq<Movement>)
    requires ValidStores(before) && ValidStores(after)
  {
    && after[LedgerEntries] == before[LedgerEntries] && after[Attachments] == before[Attachments]
    && (forall i :: 0 <= i < |items| ==> items[i].id in after[Items])
    && (forall k :: k in after[Items] ==> k in before[Items] || exists i :: 0 <= i < |items| && items[i].id == k)
    && (forall i :: 0 <= i < |movements| ==> movements[i].id in after[StockMovements])
    && HoldsLast(after[Parties], PartyRecords(parties)) && HoldsLast(after[Items], ItemRecords(items))
    && HoldsLast(after[Banks], BankRecords(banks))
    && HoldsLast(after[Expenses], ExpenseRecords(expenses)) && HoldsLast(after[Purchases], TransactionRecords(purchases))
    && HoldsLast(after[Sales], TransactionRecords(sales)) && HoldsLast(after[StockMovements], MovementRecords(movements))
  }

  /** The whole seeding transaction on the store contents: the catalog, then the history. */
  method SeedTables(stores: map<StoreName, Table>, parties: seq<Party>, items: seq<Item>, banks: seq<Bank>,
                    expenses: seq<Expense>, purchases: seq<Transaction>, sales: seq<Transaction>, movements: seq<Movement>)
    returns (ok: bool, next: map<StoreName, Table>)
    requires ValidStores(stores)
    ensures ValidStores(next)
    ensures ok ==> Seeded(stores, next, parties, items, banks, expenses, purchases, sales, movements)
    ensures !ok ==> next == stores
    ensures ok <==> ItemsFit(stores[Items], items)
  {
    ok, next := SeedCatalog(stores, parties, items, banks);
    if !ok {
      return;
    }
    ghost var catalog := next;
    next := SeedHistory(next, expenses, purchases, sales, movements);
    assert next[Parties] == catalog[Parties] && next[Items] == catalog[Items] && next[Banks] == catalog[Banks];
    assert next[LedgerEntries] == stores[LedgerEntries] && next[Attachments] == stores[Attachments];
  }

  /** Records read under distinct keys that cover a table list that table. */
  lemma KeysListTable(vs: seq<Json>, keys: seq<Id>, t: Table)
    requires KeyedById(t)
    requires |keys| == |vs| == |t.Keys|
    requires forall i :: 0 <= i < |vs| ==> keys[i] in t && vs[i] == JRecord(t[keys[i]])
    requires forall i, j :: 0 <= i < j < |vs| ==> keys[i] != keys[j]
    requires forall k :: k in t ==> k in keys
    ensures ListsTable(vs, t)
  {
    assert forall i :: 0 <= i < |vs| ==> vs[i].r.Id() == keys[i];
  }

  /** The cursor state of a `getAll`: `vs` lists the records under `keys`, each once, and `left` holds the keys not yet read. */
  ghost predicate ListedSoFar(vs: seq<Json>, keys: seq<Id>, t: Table, left: set<Id>) {
    && left <= t.Keys
    && |keys| == |vs| && |vs| + |left| == |t.Keys|
    && (forall i :: 0 <= i < |vs| ==> keys[i] in t && keys[i] !in left && vs[i] == JRecord(t[keys[i]]))
    && (forall i, j :: 0 <= i < j < |vs| ==> keys[i] != keys[j])
    && (forall k :: k in t && k !in left ==> k in keys)
  }

  /** Reading one more key keeps the cursor state. */
  lemma ListedOneMore(vs: seq<Json>, keys: seq<Id>, t: Table, left: set<Id>, k: Id)
    requires ListedSoFar(vs, keys, t, left) && k in left
    ensures ListedSoFar(vs + [JRecord(t[k])], keys + [k], t, left - {k})
  {
    var keys' := keys + [k];
    var vs' := vs + [JRecord(t[k])];
    assert forall i :: 0 <= i < |vs| ==> keys'[i] == keys[i] && vs'[i] == vs[i];
  }

  /** The stores an export has read so far, each listed under its own name. */
  ghost predicate ListsSome(data: map<string, Json>, stores: map<StoreName, Table>) {
    forall n: StoreName :: n.Name() in data ==>
      n in stores && data[n.Name()].JArray? && ListsTable(data[n.Name()].elems, stores[n])
  }

  /** Reading one more store keeps every earlier listing: no two stores share a name. */
  lemma ListsSomeAdd(data: map<string, Json>, stores: map<StoreName, Table>, name: StoreName, vs: seq<Json>)
    requires ListsSome(data, stores) && name in stores && ListsTable(vs, stores[name])
    ensures ListsSome(data[name.Name() := JArray(vs)], stores)
  {
    forall n: StoreName | n.Name() == name.Name() ensures n == name {
      NameRoundTrip(n);
      NameRoundTrip(name);
    }
  }

  /** Reading the next store in order extends the stores read so far by that one. */
  lemma ReadPrefixGrows(order: seq<StoreName>, i: nat, data: map<string, Json>, v: Json)
    requires i < |order| && forall n :: n in order[..i] ==> n.Name() in data
    ensures forall n :: n in order[..i + 1] ==> n.Name() in data[order[i].Name() := v]
  {
    assert order[..i + 1] == order[..i] + [order[i]];
  }

  /** Once every store of `STORE_NAMES` is read, the data lists all stores. */
  lemma ListsSomeComplete(data: map<string, Json>, stores: map<StoreName, Table>)
    requires ListsSome(data, stores)
    requires forall n :: n in StoreOrder ==> n.Name() in data
    ensures ListsStores(JObject(data), stores)
  {
    forall n: StoreName ensures n.Name() in data {
      StoreOrderComplete(n);
    }
  }

  // ---------------------------------------------------------------------
  // The database
  // ---------------------------------------------------------------------

  /** The nine data stores and the meta store. */
  class Database {
    var stores: map<StoreName, Table>
    var meta: map<string, Json>

    /** A freshly upgraded database: every store created and empty. */
    constructor ()
      ensures ValidStores(stores) && meta == map[]
      ensures forall n: StoreName :: stores[n] == map[]
    {
      stores := map n | n in StoreOrder :: map[];
      meta := map[];
      new;
      forall n: StoreName ensures n in stores {
        StoreOrderComplete(n);
      }
    }

    /** `add(storeName, value)`: an upsert by id that fails when another item holds the sku. */
    method Add(store: StoreName, r: Record) returns (ok: bool)
      requires ValidStores(stores)
      modifies this
      ensures ValidStores(stores)
      ensures ok <==> !(store.UniqueSku() && SkuClash(old(stores)[store], r))
      ensures ok ==> stores == old(stores)[store := old(stores)[store][r.Id() := r]]
      ensures !ok ==> stores == old(stores)
      ensures meta == old(meta)
    {
      var put := Put(stores[store], r, store.UniqueSku());
      if put.None? {
        return false;
      }
      PutKeepsValid(stores[store], r, store.UniqueSku());
      stores := stores[store := put.value];
      return true;
    }

    /** `remove(storeName, id)`: deletes the key if present. */
    method Remove(store: StoreName, id: Id)
      requires ValidStores(stores)
      modifies this
      ensures ValidStores(stores)
      ensures stores == old(stores)[store := old(stores)[store] - {id}]
      ensures meta == old(meta)
    {
      stores := stores[store := stores[store] - {id}];
    }

    /** `getAll()` on one store: its records, each once, in an order the model leaves open. */
    method GetAll(store: StoreName) returns (vs: seq<Json>)
      requires ValidStores(stores)
      ensures ListsTable(vs, stores[store])
    {
      var t := stores[store];
      var left := t.Keys;
      vs := [];
      ghost var keys: seq<Id> := [];
      while left != {}
        invariant ListedSoFar(vs, keys, t, left)
        decreases left
      {
        var k :| k in left;
        ListedOneMore(vs, keys, t, left, k);
        keys := keys + [k];
        vs := vs + [JRecord(t[k])];
        left := left - {k};
      }
      KeysListTable(vs, keys, t);
    }

    /** `exportSnapshot()`: the version, the time, and every store read in full (`listAllData`). */
    method ExportSnapshot(now: string) returns (s: Json)
      requires ValidStores(stores)
      ensures IsExportOf(s, stores, now)
    {
      var data: map<string, Json> := map[];
      for i := 0 to |StoreOrder|
        invariant ListsSome(data, stores)
        invariant forall n :: n in StoreOrder[..i] ==> n.Name() in data
      {
        var name := StoreOrder[i];
        var vs := GetAll(name);
        ListsSomeAdd(data, stores, name, vs);
        ReadPrefixGrows(StoreOrder, i, data, JArray(vs));
        data := data[name.Name() := JArray(vs)];
      }
      assert StoreOrder[..|StoreOrder|] == StoreOrder;
      ListsSomeComplete(data, stores);
      s := JObject(map["version" := JNum(DbVersion as real), "exportedAt" := JStr(now), "data" := JObject(data)]);
    }

    /**
     * `importSnapshot(snapshot)`: rejects anything but an object; otherwise,
     * in one transaction, clears each of the nine stores and puts the
     * elements of the snapshot's array for it (nothing for a missing or
     * non-array entry). A sku clash rolls the transaction back; an element
     * that is not a record throws, leaving the stores written so far
     * committed. The meta store is never touched.
     */
    method ImportSnapshot(snapshot: Json, now: string) returns (result: ImportResult)
      modifies this
      ensures result == InvalidSnapshot <==> !IsObject(snapshot)
      ensures IsObject(snapshot) ==>
                && (result == Aborted <==> ImportStores(DataOf(snapshot), StoreOrder).RolledBack?)
                && (result == PartlyImported <==> ImportStores(DataOf(snapshot), StoreOrder).Halted?)
                && (result.Imported? <==> ImportStores(DataOf(snapshot), StoreOrder).Completed?)
      ensures result.Imported? ==> result.at == ExportedAt(snapshot, now)
      ensures result.Imported? ==> stores == ImportStores(DataOf(snapshot), StoreOrder).written
      ensures result == PartlyImported ==> stores == old(stores) + ImportStores(DataOf(snapshot), StoreOrder).written
      ensures result == InvalidSnapshot || result == Aborted ==> stores == old(stores)
      ensures meta == old(meta)
    {
      if !IsObject(snapshot) {
        return InvalidSnapshot;
      }
      var data := DataOf(snapshot);
      var written: map<StoreName, Table> := map[];
      PrependNothing(ImportStores(data, StoreOrder));
      for i := 0 to |StoreOrder|
        invariant stores == old(stores) && meta == old(meta)
        invariant ImportStores(data, StoreOrder) == Prepend(written, ImportStores(data, StoreOrder[i..]))
      {
        var name := StoreOrder[i];
        assert StoreOrder[i..][0] == name && StoreOrder[i..][1..] == StoreOrder[i + 1..];
        var table, halted := PutElements(StoreArray(data, name), name.UniqueSku());
        if table.None? {
          ImportStepClashes(data, StoreOrder[i..], written);
          return Aborted;
        }
        if halted {
          ImportStepHalts(data, StoreOrder[i..], written);
          stores := stores + written[name := table.value];
          return PartlyImported;
        }
        ImportStepWrites(data, StoreOrder[i..], written);
        written := written[name := table.value];
      }
      assert ImportStores(data, StoreOrder[|StoreOrder|..]) == Completed(map[]);
      assert written + map[] == written;
      stores := written;
      return Imported(ExportedAt(snapshot, now));
    }

    /**
     * `seedData(db)`: only when the items store is empty, put the sample
     * parties, items, banks, expenses, purchases, sales and movements in one
     * transaction. No ledger entries and no attachments are written.
     */
    method SeedData(parties: seq<Party>, items: seq<Item>, banks: seq<Bank>, expenses: seq<Expense>,
                    purchases: seq<Transaction>, sales: seq<Transaction>, movements: seq<Movement>) returns (seeded: bool)
      requires ValidStores(stores)
      modifies this
      ensures ValidStores(stores)
      ensures old(stores)[Items] != map[] ==> !seeded
      ensures old(stores)[Items] == map[] && ItemsFit(map[], items) ==> seeded
      ensures seeded ==> old(stores)[Items] == map[] && ItemsFit(map[], items)
      ensures seeded ==> Seeded(old(stores), stores, parties, items, banks, expenses, purchases, sales, movements)
      ensures seeded ==> forall k :: k in stores[Items] ==> exists i :: 0 <= i < |items| && items[i].id == k
      ensures !seeded ==> stores == old(stores)
      ensures meta == old(meta)
    {
      if stores[Items] != map[] {
        return false;
      }
      var next;
      seeded, next := SeedTables(stores, parties, items, banks, expenses, purchases, sales, movements);
      if seeded {
        stores := next;
      }
    }
  }
}
