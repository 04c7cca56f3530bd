/**
 * The sample data a fresh database is seeded with, and the stock movements
 * built from it: ten items, ten parties, three banks, five expenses, five
 * purchases of the first five items and five sales of the fourth to eighth.
 *
 * `Utils.uuid()` and the date helpers are not modelled: the fresh ids are a
 * parameter `ids`, consumed in order, and `dateAt(n)` stands for the ISO
 * date `n` days from today.
 */
module Seed {
  import opened Wrappers
  import opened Utils
  import opened Records
  import opened Stock
  import opened Engine
  import opened Reports
  import Store

  // ---------------------------------------------------------------------
  // Sample records
  // ---------------------------------------------------------------------

  /** `sampleItems()`: ten items, all opened today. */
  function SampleItems(today: Date): (items: seq<Item>)
    ensures |items| == 10
    ensures forall i :: 0 <= i < |items| ==> items[i].openingDate == today && items[i].cost > 0.0 && items[i].openingStock > 0.0
  {
    [ Item("item-1", "SKU-001", "Office Chair", "Furniture", 95.0, 20.0, 5.0, today),
      Item("item-2", "SKU-002", "Standing Desk", "Furniture", 220.0, 10.0, 2.0, today),
      Item("item-3", "SKU-003", "LED Monitor 24\"", "Electronics", 130.0, 18.0, 4.0, today),
      Item("item-4", "SKU-004", "Wireless Keyboard", "Electronics", 32.0, 35.0, 10.0, today),
      Item("item-5", "SKU-005", "Wireless Mouse", "Electronics", 22.0, 40.0, 12.0, today),
      Item("item-6", "SKU-006", "USB-C Hub", "Accessories", 28.0, 25.0, 6.0, today),
      Item("item-7", "SKU-007", "Noise Cancelling Headphones", "Electronics", 160.0, 12.0, 3.0, today),
      Item("item-8", "SKU-008", "Projector", "Electronics", 480.0, 5.0, 1.0, today),
      Item("item-9", "SKU-009", "Printer Ink Cartridge", "Supplies", 18.0, 50.0, 15.0, today),
      Item("item-10", "SKU-010", "Stationery Pack", "Supplies", 12.0, 60.0, 20.0, today) ]
  }

  /** The ten sample skus are distinct, so seeding an empty items store never clashes on the sku index. */
  lemma SampleItemsFit(today: Date)
    ensures Store.ItemsFit(map[], SampleItems(today))
  {
    var rs := Store.ItemRecords(SampleItems(today));
    forall i, j | 0 <= i < j < |rs| && rs[i].Sku().Some? ensures rs[i].Sku() != rs[j].Sku() {
      assert rs[i].Sku() == Some(SampleItems(today)[i].sku) && rs[j].Sku() == Some(SampleItems(today)[j].sku);
    }
    Store.DistinctSkusFit(map[], rs);
  }

  /** `sampleParties()`: five suppliers and five customers. */
  function SampleParties(): (parties: seq<Party>)
    ensures |parties| == 10
  {
    [ Party("party-1", "Acme Supplies", "supplier", "sales@acme.com"),
      Party("party-2", "Blue Ocean Traders", "supplier", "hello@blueocean.com"),
      Party("party-3", "Creative Solutions", "customer", "finance@creative.com"),
      Party("party-4", "Delta Works", "customer", "accounts@delta.com"),
      Party("party-5", "Evergreen Retail", "customer", "orders@evergreen.com"),
      Party("party-6", "Future Tech Labs", "supplier", "accounts@futuretech.com"),
      Party("party-7", "Green Leaf Stores", "customer", "billing@greenleaf.com"),
      Party("party-8", "Horizon Partners", "supplier", "support@horizon.com"),
      Party("party-9", "Insight Marketing", "customer", "finance@insight.com"),
      Party("party-10", "Jetstream Logistics", "supplier", "info@jetstream.com") ]
  }

  /** `sampleBanks()`. */
  function SampleBanks(): (banks: seq<Bank>)
    ensures |banks| == 3
    ensures forall i :: 0 <= i < |banks| ==> banks[i].balance > 0.0
  {
    [ Bank("bank-1", "Operating Account", 5000.0),
      Bank("bank-2", "Savings Account", 15000.0),
      Bank("bank-3", "Petty Cash", 750.0) ]
  }

  /** `sampleExpenses()`: five expenses dated 20, 10, 15, 5 and 7 days ago; the first three recur monthly. */
  function SampleExpenses(ids: seq<Id>, dateAt: int -> Date): (expenses: seq<Expense>)
    requires |ids| >= 5
    ensures |expenses| == 5
    ensures forall i :: 0 <= i < 5 ==> expenses[i].id == ids[i] && expenses[i].amount > 0.0
    ensures forall i :: 0 <= i < 5 ==> (expenses[i].recurring <==> expenses[i].frequency.Some?)
  {
    [ Expense(ids[0], Some("Rent"), 1200.0, dateAt(-20), Some("party-2"), true, Some("monthly"), None),
      Expense(ids[1], Some("Utilities"), 350.0, dateAt(-10), Some("party-1"), true, Some("monthly"), None),
      Expense(ids[2], Some("Software"), 220.0, dateAt(-15), Some("party-6"), true, Some("monthly"), None),
      Expense(ids[3], Some("Travel"), 540.0, dateAt(-5), Some("party-5"), false, None, None),
      Expense(ids[4], Some("Maintenance"), 310.0, dateAt(-7), Some("party-8"), false, None, None) ]
  }

  predicate IsSupplier(p: Party) { p.partyType == "supplier" }
  predicate IsCustomer(p: Party) { p.partyType == "customer" }

  /** The parties whose type is supplier, in order. */
  function Suppliers(parties: seq<Party>): seq<Party> { Filter(parties, IsSupplier) }

  /** The parties whose type is customer, in order. */
  function Customers(parties: seq<Party>): seq<Party> { Filter(parties, IsCustomer) }

  /** A supplier at `s` and a customer at `c` make both filters non-empty. */
  lemma PartiesWithRoles(ps: seq<Party>, s: nat, c: nat)
    requires s < |ps| && c < |ps| && ps[s].partyType == "supplier" && ps[c].partyType == "customer"
    ensures |Suppliers(ps)| > 0 && |Customers(ps)| > 0
  {
    FilterKeeps(ps, IsSupplier, s);
    FilterKeeps(ps, IsCustomer, c);
  }

  /** A filter keeps an element that satisfies it, so it is not empty. */
  lemma FilterKeeps<T>(xs: seq<T>, p: T -> bool, i: nat)
    requires i < |xs| && p(xs[i])
    ensures |Filter(xs, p)| > 0
  {
    assert xs[i] in Filter(xs, p);
  }

  /** `items.slice(0, n)` has this many elements. */
  function SliceLength(count: nat, from: nat, to: nat): nat
    requires from <= to
  {
    if count <= from then 0 else if count <= to then count - from else to - from
  }

  /**
   * The `index`-th sample purchase: `5 + 2 * index` units at 95% of the
   * item's cost, 60% of the cost paid and 35% owed.
   */
  function SamplePurchase(item: Item, supplier: Party, index: nat, id: Id, dateAt: int -> Date): (t: Transaction)
    ensures t.itemId == item.id && t.partyId == Some(supplier.id)
    ensures t.total == t.quantity * t.rate && t.quantity > 0.0
    ensures t.paid.Some? && t.paid.value + t.balance == t.total
  {
    var qty := (5 + index * 2) as real;
    Transaction(id, item.id, Some(supplier.id), qty, item.cost * 0.95, qty * item.cost * 0.95,
                Some(dateAt(14 - index * 3)), dateAt(-(index as int) * 3), qty * item.cost * 0.35,
                Some(qty * item.cost * 0.6), None, None)
  }

  /**
   * `samplePurchases(items, parties)`: one purchase of each of the first five
   * items, from the suppliers in turn. With items and no supplier the source
   * reads `.id` of `undefined` and throws; that case is excluded.
   */
  function SamplePurchases(items: seq<Item>, parties: seq<Party>, ids: seq<Id>, dateAt: int -> Date): (ps: seq<Transaction>)
    requires |items| > 0 ==> |Suppliers(parties)| > 0
    requires |ids| >= SliceLength(|items|, 0, 5)
    ensures |ps| == SliceLength(|items|, 0, 5)
    ensures forall i :: 0 <= i < |ps| ==> ps[i].id == ids[i] && ps[i].itemId == items[i].id && ps[i].quantity == (5 + 2 * i) as real
    ensures forall i :: 0 <= i < |ps| ==> ps[i].paid.Some? && ps[i].paid.value + ps[i].balance == ps[i].total
  {
    var suppliers := Suppliers(parties);
    seq(SliceLength(|items|, 0, 5), i requires 0 <= i < SliceLength(|items|, 0, 5) =>
      SamplePurchase(items[i], suppliers[i % |suppliers|], i, ids[i], dateAt))
  }

  /**
   * The `index`-th sample sale: `3 + index` units at 140% of the item's
   * cost, 70% received and 30% owed.
   */
  function SampleSale(item: Item, customer: Party, index: nat, id: Id, dateAt: int -> Date): (t: Transaction)
    ensures t.itemId == item.id && t.partyId == Some(customer.id)
    ensures t.total == t.quantity * t.rate && t.quantity > 0.0
    ensures t.received.Some? && t.received.value + t.balance == t.total
  {
    var qty := (3 + index) as real;
    var rate := item.cost * 1.4;
    Transaction(id, item.id, Some(customer.id), qty, rate, qty * rate,
                Some(dateAt(7 + index * 2)), dateAt(-(index as int) * 4), qty * rate * 0.3,
                None, Some(qty * rate * 0.7), None)
  }

  /**
   * `sampleSales(items, parties)`: one sale of each of the fourth to eighth
   * items, to the customers in turn; without customers the source throws.
   */
  function SampleSales(items: seq<Item>, parties: seq<Party>, ids: seq<Id>, dateAt: int -> Date): (ss: seq<Transaction>)
    requires |items| > 3 ==> |Customers(parties)| > 0
    requires |ids| >= SliceLength(|items|, 3, 8)
    ensures |ss| == SliceLength(|items|, 3, 8)
    ensures forall i :: 0 <= i < |ss| ==> ss[i].id == ids[i] && ss[i].itemId == items[3 + i].id && ss[i].quantity == (3 + i) as real
    ensures forall i :: 0 <= i < |ss| ==> ss[i].received.Some? && ss[i].received.value + ss[i].balance == ss[i].total
  {
    var customers := Customers(parties);
    seq(SliceLength(|items|, 3, 8), i requires 0 <= i < SliceLength(|items|, 3, 8) =>
      SampleSale(items[3 + i], customers[i % |customers|], i, ids[i], dateAt))
  }

  // ---------------------------------------------------------------------
  // buildStockMovements
  // ---------------------------------------------------------------------

  /** One opening movement per item, taking the ids `ids[0..|items|]`. */
  function Openings(items: seq<Item>, ids: seq<Id>): (ms: seq<Movement>)
    requires |ids| >= |items|
    ensures |ms| == |items|
  {
    seq(|items|, i requires 0 <= i < |items| => OpeningFor(items[i], ids[i], items[i].openingDate))
  }

  /** One purchase movement per purchase, taking the ids from `ids[offset]`. */
  function PurchaseInflows(purchases: seq<Transaction>, items: seq<Item>, ids: seq<Id>, offset: nat): (ms: seq<Movement>)
    requires |ids| >= offset + |purchases|
    ensures |ms| == |purchases|
  {
    seq(|purchases|, i requires 0 <= i < |purchases| => TransactionMovement(Purchase, purchases[i], items, ids[offset + i]))
  }

  /** One sale movement per sale, taking the ids from `ids[offset]`. */
  function SaleOutflows(sales: seq<Transaction>, items: seq<Item>, ids: seq<Id>, offset: nat): (ms: seq<Movement>)
    requires |ids| >= offset + |sales|
    ensures |ms| == |sales|
  {
    seq(|sales|, i requires 0 <= i < |sales| => TransactionMovement(Sale, sales[i], items, ids[offset + i]))
  }

  /** The movements `buildStockMovements` returns: the openings, then the purchases, then the sales. */
  function SeedMovements(items: seq<Item>, purchases: seq<Transaction>, sales: seq<Transaction>, ids: seq<Id>): (ms: seq<Movement>)
    requires |ids| >= |items| + |purchases| + |sales|
  {
    Openings(items, ids) + PurchaseInflows(purchases, items, ids, |items|) + SaleOutflows(sales, items, ids, |items| + |purchases|)
  }

  /**
   * `buildStockMovements(items, purchases, sales)`: three passes, each
   * pushing one movement per record.
   */
  method BuildStockMovements(items: seq<Item>, purchases: seq<Transaction>, sales: seq<Transaction>, ids: seq<Id>)
    returns (movements: seq<Movement>)
    requires |ids| >= |items| + |purchases| + |sales|
    ensures movements == SeedMovements(items, purchases, sales, ids)
  {
    movements := [];
    for i := 0 to |items|
      invariant movements == Openings(items, ids)[..i]
    {
      movements := movements + [OpeningFor(items[i], ids[i], items[i].openingDate)];
    }
    assert Openings(items, ids)[..|items|] == Openings(items, ids);
    var openings := movements;
    for i := 0 to |purchases|
      invariant movements == openings + PurchaseInflows(purchases, items, ids, |items|)[..i]
    {
      var m := TransactionMovement(Purchase, purchases[i], items, ids[|items| + i]);
      assert PurchaseInflows(purchases, items, ids, |items|)[..i + 1] == PurchaseInflows(purchases, items, ids, |items|)[..i] + [m];
      movements := movements + [m];
    }
    assert PurchaseInflows(purchases, items, ids, |items|)[..|purchases|] == PurchaseInflows(purchases, items, ids, |items|);
    var bought := movements;
    for i := 0 to |sales|
      invariant movements == bought + SaleOutflows(sales, items, ids, |items| + |purchases|)[..i]
    {
      var m := TransactionMovement(Sale, sales[i], items, ids[|items| + |purchases| + i]);
      assert SaleOutflows(sales, items, ids, |items| + |purchases|)[..i + 1] == SaleOutflows(sales, items, ids, |items| + |purchases|)[..i] + [m];
      movements := movements + [m];
    }
    assert SaleOutflows(sales, items, ids, |items| + |purchases|)[..|sales|] == SaleOutflows(sales, items, ids, |items| + |purchases|);
  }

  /** The seed's movements are its openings, then its purchase movements, then its sale movements. */
  lemma SeedMovementsParts(items: seq<Item>, purchases: seq<Transaction>, sales: seq<Transaction>, ids: seq<Id>)
    requires |ids| >= |items| + |purchases| + |sales|
    ensures var ms := SeedMovements(items, purchases, sales, ids);
      && |ms| == |items| + |purchases| + |sales|
      && ms[..|items|] == Openings(items, ids)
      && ms[|items|..|items| + |purchases|] == PurchaseInflows(purchases, items, ids, |items|)
      && ms[|items| + |purchases|..] == SaleOutflows(sales, items, ids, |items| + |purchases|)
  {
    var a := Openings(items, ids);
    var b := PurchaseInflows(purchases, items, ids, |items|);
    var c := SaleOutflows(sales, items, ids, |items| + |purchases|);
    var ms := a + b + c;
    assert ms[..|a|] == a;
    assert ms[|a|..|a| + |b|] == b;
    assert ms[|a| + |b|..] == c;
  }

  /** Each item gets one opening movement of its opening stock at its cost, referring to the item. */
  lemma OpeningsShape(items: seq<Item>, ids: seq<Id>)
    requires |ids| >= |items|
    ensures forall i :: 0 <= i < |items| ==>
      var m := Openings(items, ids)[i];
      m.id == ids[i] && m.kind == OpeningMovement && m.itemId == items[i].id && m.quantity == items[i].openingStock
      && m.cost == items[i].cost && m.referenceId == Some(items[i].id)
  {
  }

  /** Each purchase gets one movement of +quantity at its rate, referring to the purchase. */
  lemma PurchaseInflowsShape(purchases: seq<Transaction>, items: seq<Item>, ids: seq<Id>, offset: nat)
    requires |ids| >= offset + |purchases|
    ensures forall i :: 0 <= i < |purchases| ==>
      var m := PurchaseInflows(purchases, items, ids, offset)[i];
      m.id == ids[offset + i] && m.kind == PurchaseMovement && m.itemId == purchases[i].itemId
      && m.quantity == purchases[i].quantity && m.cost == purchases[i].rate && m.referenceId == Some(purchases[i].id)
  {
  }

  /** Each sale gets one movement of -quantity at the item's cost (or the rate), referring to the sale. */
  lemma SaleOutflowsShape(sales: seq<Transaction>, items: seq<Item>, ids: seq<Id>, offset: nat)
    requires |ids| >= offset + |sales|
    ensures forall i :: 0 <= i < |sales| ==>
      var m := SaleOutflows(sales, items, ids, offset)[i];
      m.id == ids[offset + i] && m.kind == SaleMovement && m.itemId == sales[i].itemId
      && m.quantity == -sales[i].quantity && m.cost == SaleCost(items, sales[i].itemId, sales[i].rate)
      && m.referenceId == Some(sales[i].id)
  {
  }

  // ---------------------------------------------------------------------
  // The stock the seed leaves
  // ---------------------------------------------------------------------

  /** The opening stock an item contributes to `itemId`. */
  function OpeningStockOf(itemId: Id, x: Item): real { if x.id == itemId then x.openingStock else 0.0 }

  /** The quantity a purchase or sale contributes to `itemId`. */
  function QuantityOf(itemId: Id, t: Transaction): real { if t.itemId == itemId then t.quantity else 0.0 }

  /** The opening stock of `itemId` among `items`. */
  function OpeningTotal(items: seq<Item>, itemId: Id): real { Sum(items, x => OpeningStockOf(itemId, x)) }

  /** The quantity of `itemId` across purchases or sales. */
  function QuantityTotal(ts: seq<Transaction>, itemId: Id): real { Sum(ts, t => QuantityOf(itemId, t)) }

  /** Stock of movements that match a list term by term. */
  lemma {:induction false} StockPointwise<T>(ms: seq<Movement>, xs: seq<T>, f: T -> real, itemId: Id)
    requires |ms| == |xs|
    requires forall i :: 0 <= i < |ms| ==> (if ms[i].itemId == itemId then ms[i].quantity else 0.0) == f(xs[i])
    ensures StockOf(ms, itemId) == Sum(xs, f)
    decreases |ms|
  {
    if |ms| > 0 {
      StockPointwise(ms[..|ms| - 1], xs[..|xs| - 1], f, itemId);
    }
  }

  /** Negating every term negates a sum. */
  lemma {:induction false} SumNegated<T>(xs: seq<T>, f: T -> real, g: T -> real)
    requires forall i :: 0 <= i < |xs| ==> g(xs[i]) == -f(xs[i])
    ensures Sum(xs, g) == -Sum(xs, f)
    decreases |xs|
  {
    if |xs| > 0 {
      SumNegated(xs[..|xs| - 1], f, g);
    }
  }

  /**
   * After seeding, an item's stock is its opening stock plus what was
   * bought of it less what was sold of it.
   */
  lemma {:induction false} SeedStock(items: seq<Item>, purchases: seq<Transaction>, sales: seq<Transaction>, ids: seq<Id>, itemId: Id)
    requires |ids| >= |items| + |purchases| + |sales|
    ensures StockOf(SeedMovements(items, purchases, sales, ids), itemId)
              == OpeningTotal(items, itemId) + QuantityTotal(purchases, itemId) - QuantityTotal(sales, itemId)
  {
    SeedStockParts(items, purchases, sales, ids, itemId);
    OpeningsStock(items, ids, itemId);
    PurchaseInflowsStock(purchases, items, ids, |items|, itemId);
    SaleOutflowsStock(sales, items, ids, |items| + |purchases|, itemId);
  }

  /** The seed's stock is the openings' plus the purchases' plus the sales' movements' stock. */
  lemma SeedStockParts(items: seq<Item>, purchases: seq<Transaction>, sales: seq<Transaction>, ids: seq<Id>, itemId: Id)
    requires |ids| >= |items| + |purchases| + |sales|
    ensures StockOf(SeedMovements(items, purchases, sales, ids), itemId)
              == StockOf(Openings(items, ids), itemId)
                 + StockOf(PurchaseInflows(purchases, items, ids, |items|), itemId)
                 + StockOf(SaleOutflows(sales, items, ids, |items| + |purchases|), itemId)
  {
    StockOfThree(Openings(items, ids), PurchaseInflows(purchases, items, ids, |items|),
                 SaleOutflows(sales, items, ids, |items| + |purchases|), itemId);
  }

  /** Stock over three concatenated lists is the sum of the parts' stock. */
  lemma StockOfThree(a: seq<Movement>, b: seq<Movement>, c: seq<Movement>, itemId: Id)
    ensures StockOf(a + b + c, itemId) == StockOf(a, itemId) + StockOf(b, itemId) + StockOf(c, itemId)
  {
    StockAppend(a + b, c, itemId);
    StockAppend(a, b, itemId);
  }

  /** The openings hold each item's opening stock. */
  lemma {:induction false} OpeningsStock(items: seq<Item>, ids: seq<Id>, itemId: Id)
    requires |ids| >= |items|
    ensures StockOf(Openings(items, ids), itemId) == OpeningTotal(items, itemId)
  {
    StockPointwise(Openings(items, ids), items, x => OpeningStockOf(itemId, x), itemId);
  }

  /** The purchase movements add each purchase's quantity. */
  lemma {:induction false} PurchaseInflowsStock(purchases: seq<Transaction>, items: seq<Item>, ids: seq<Id>, offset: nat, itemId: Id)
    requires |ids| >= offset + |purchases|
    ensures StockOf(PurchaseInflows(purchases, items, ids, offset), itemId) == QuantityTotal(purchases, itemId)
  {
    StockPointwise(PurchaseInflows(purchases, items, ids, offset), purchases, t => QuantityOf(itemId, t), itemId);
  }

  /** The sale movements take away each sale's quantity. */
  lemma {:induction false} SaleOutflowsStock(sales: seq<Transaction>, items: seq<Item>, ids: seq<Id>, offset: nat, itemId: Id)
    requires |ids| >= offset + |sales|
    ensures StockOf(SaleOutflows(sales, items, ids, offset), itemId) == -QuantityTotal(sales, itemId)
  {
    StockPointwise(SaleOutflows(sales, items, ids, offset), sales, t => -QuantityOf(itemId, t), itemId);
    SumNegated(sales, t => QuantityOf(itemId, t), t => -QuantityOf(itemId, t));
  }

  /** A sum whose terms vanish everywhere but at `k` is its term at `k`. */
  lemma {:induction false} SumOnlyAt<T>(xs: seq<T>, f: T -> real, k: nat)
    requires k < |xs|
    requires forall i :: 0 <= i < |xs| && i != k ==> f(xs[i]) == 0.0
    ensures Sum(xs, f) == f(xs[k])
    decreases |xs|
  {
    var init := xs[..|xs| - 1];
    if k == |xs| - 1 {
      SumZero(init, f);
    } else {
      SumOnlyAt(init, f, k);
    }
  }

  /**
   * The seed leaves item-8 at -2 units: it opens with 5, no sample purchase
   * buys it (they buy items 1 to 5), and the fifth sample sale sells 7 of it.
   */
  lemma SeedLeavesItem8Negative(today: Date, parties: seq<Party>, purchaseIds: seq<Id>, saleIds: seq<Id>,
                                movementIds: seq<Id>, dateAt: int -> Date)
    requires |Suppliers(parties)| > 0 && |Customers(parties)| > 0
    requires |purchaseIds| >= 5 && |saleIds| >= 5 && |movementIds| >= 20
    ensures var items := SampleItems(today);
      var purchases := SamplePurchases(items, parties, purchaseIds, dateAt);
      var sales := SampleSales(items, parties, saleIds, dateAt);
      StockOf(SeedMovements(items, purchases, sales, movementIds), "item-8") == -2.0
  {
    var items := SampleItems(today);
    var purchases := SamplePurchases(items, parties, purchaseIds, dateAt);
    var sales := SampleSales(items, parties, saleIds, dateAt);
    SeedStock(items, purchases, sales, movementIds, "item-8");
    Item8Opening(today);
    Item8Bought(today, parties, purchaseIds, dateAt);
    Item8Sold(today, parties, saleIds, dateAt);
  }

  /** Of the sample items only item-8 is item-8, and it opens with 5 units. */
  lemma Item8Opening(today: Date)
    ensures OpeningTotal(SampleItems(today), "item-8") == 5.0
  {
    var items := SampleItems(today);
    assert forall i :: 0 <= i < 10 && i != 7 ==> items[i].id != "item-8";
    SumOnlyAt(items, x => OpeningStockOf("item-8", x), 7);
  }

  /** No sample purchase buys item-8. */
  lemma Item8Bought(today: Date, parties: seq<Party>, ids: seq<Id>, dateAt: int -> Date)
    requires |Suppliers(parties)| > 0 && |ids| >= 5
    ensures QuantityTotal(SamplePurchases(SampleItems(today), parties, ids, dateAt), "item-8") == 0.0
  {
    var items := SampleItems(today);
    var purchases := SamplePurchases(items, parties, ids, dateAt);
    assert forall i :: 0 <= i < 5 ==> items[i].id != "item-8";
    SumZero(purchases, t => QuantityOf("item-8", t));
  }

  /** Only the fifth sample sale sells item-8, and it sells 7 units. */
  lemma Item8Sold(today: Date, parties: seq<Party>, ids: seq<Id>, dateAt: int -> Date)
    requires |Customers(parties)| > 0 && |ids| >= 5
    ensures QuantityTotal(SampleSales(SampleItems(today), parties, ids, dateAt), "item-8") == 7.0
  {
    var items := SampleItems(today);
    var sales := SampleSales(items, parties, ids, dateAt);
    assert forall i :: 3 <= i < 8 && i != 7 ==> items[i].id != "item-8";
    assert sales[4].itemId == "item-8" && sales[4].quantity == 7.0;
    SumOnlyAt(sales, t => QuantityOf("item-8", t), 4);
  }
}
