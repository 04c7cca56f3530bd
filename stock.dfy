/**
 * Stock levels and item costs as the engine derives them from the stock
 * movements: `calculateAvailableStock`, the retraction rule of
 * `removeStockMovementsForTransaction`, and the cost that
 * `recalculateItemCost` leaves on an item.
 */
module Stock {
  import opened Wrappers
  import opened Utils
  import opened Records

  // ---------------------------------------------------------------------
  // Stock levels
  // ---------------------------------------------------------------------

  /**
   * `calculateAvailableStock(itemId)`: the sum of the quantities of the
   * item's movements (other items' movements add nothing).
   */
  function StockOf(ms: seq<Movement>, itemId: Id): real
    decreases |ms|
  {
    if |ms| == 0 then 0.0
    else StockOf(ms[..|ms| - 1], itemId) + (if ms[|ms| - 1].itemId == itemId then ms[|ms| - 1].quantity else 0.0)
  }

  /** Stock adds up over concatenated movement lists. */
  lemma {:induction false} StockAppend(a: seq<Movement>, b: seq<Movement>, itemId: Id)
    ensures StockOf(a + b, itemId) == StockOf(a, itemId) + StockOf(b, itemId)
    decreases |b|
  {
    if |b| == 0 {
      assert a + b == a;
    } else {
      assert (a + b)[..|a + b| - 1] == a + b[..|b| - 1];
      StockAppend(a, b[..|b| - 1], itemId);
    }
  }

  function MovementQuantity(m: Movement): real { m.quantity }
  predicate OfItem(itemId: Id, m: Movement) { m.itemId == itemId }

  /** `StockOf` is the filter-then-reduce of `calculateAvailableStock`. */
  lemma {:induction false} StockIsFilterReduce(ms: seq<Movement>, itemId: Id)
    ensures StockOf(ms, itemId) == Sum(Filter(ms, m => OfItem(itemId, m)), MovementQuantity)
    decreases |ms|
  {
    if |ms| > 0 {
      var init := ms[..|ms| - 1];
      var last := ms[|ms| - 1];
      assert ms == init + [last];
      StockIsFilterReduce(init, itemId);
      FilterAppend(init, [last], m => OfItem(itemId, m));
      SumAppend(Filter(init, m => OfItem(itemId, m)), Filter([last], m => OfItem(itemId, m)), MovementQuantity);
      SumSingleton(last, MovementQuantity);
      assert Filter([last], m => OfItem(itemId, m)) == if OfItem(itemId, last) then [last] else [];
    }
  }

  /** A single movement moves only its own item's stock. */
  lemma StockOfOne(m: Movement, itemId: Id)
    ensures StockOf([m], itemId) == if m.itemId == itemId then m.quantity else 0.0
  {
    assert [m][..0] == [];
  }

  /** A filter and its complement split the stock of every item. */
  lemma {:induction false} StockPartition(ms: seq<Movement>, p: Movement -> bool, q: Movement -> bool, itemId: Id)
    requires forall m :: q(m) == !p(m)
    ensures StockOf(Filter(ms, p), itemId) + StockOf(Filter(ms, q), itemId) == StockOf(ms, itemId)
    decreases |ms|
  {
    if |ms| > 0 {
      var init := ms[..|ms| - 1];
      var last := ms[|ms| - 1];
      assert ms == init + [last];
      StockPartition(init, p, q, itemId);
      FilterAppend(init, [last], p);
      FilterAppend(init, [last], q);
      StockAppend(Filter(init, p), Filter([last], p), itemId);
      StockAppend(Filter(init, q), Filter([last], q), itemId);
      StockOfOne(last, itemId);
      assert Filter([last], p) == if p(last) then [last] else [];
      assert Filter([last], q) == if q(last) then [last] else [];
    }
  }

  // ---------------------------------------------------------------------
  // Retraction of a transaction's movements
  // ---------------------------------------------------------------------

  /** The movement type a transaction type writes. */
  function MovementKind(kind: TransactionType): MovementType {
    if kind == Sale then SaleMovement else PurchaseMovement
  }

  function Abs(x: real): real { if x < 0.0 then -x else x }

  /**
   * The filter of `removeStockMovementsForTransaction(record, type)`: the
   * movement refers to the record, or it has no reference and agrees with
   * the record on item, type, date and absolute quantity.
   */
  predicate MatchesTransaction(r: Transaction, kind: TransactionType, m: Movement) {
    m.referenceId == Some(r.id)
    || ((m.referenceId.None? || m.referenceId == Some(""))
        && m.itemId == r.itemId && m.kind == MovementKind(kind) && m.date == r.date
        && Abs(m.quantity) == Abs(r.quantity))
  }

  /** The ids of the matching movements. */
  function MatchedIds(ms: seq<Movement>, r: Transaction, kind: TransactionType): (ids: set<Id>)
    ensures forall i :: 0 <= i < |ms| && MatchesTransaction(r, kind, ms[i]) ==> ms[i].id in ids
    ensures forall id :: id in ids ==> exists i :: 0 <= i < |ms| && ms[i].id == id && MatchesTransaction(r, kind, ms[i])
  {
    set m | m in ms && MatchesTransaction(r, kind, m) :: m.id
  }

  predicate Survives(ids: set<Id>, m: Movement) { m.id !in ids }
  predicate Retracted(ids: set<Id>, m: Movement) { m.id in ids }

  /**
   * The movements left after retracting a transaction: every movement whose
   * id is not the id of a matching movement, in the original order.
   */
  function RemoveMatched(ms: seq<Movement>, r: Transaction, kind: TransactionType): (rest: seq<Movement>)
    ensures forall i :: 0 <= i < |rest| ==> rest[i] in ms && rest[i].id !in MatchedIds(ms, r, kind)
    ensures forall i :: 0 <= i < |ms| && ms[i].id !in MatchedIds(ms, r, kind) ==> ms[i] in rest
    ensures forall i :: 0 <= i < |rest| ==> !MatchesTransaction(r, kind, rest[i])
  {
    var ids := MatchedIds(ms, r, kind);
    Filter(ms, m => Survives(ids, m))
  }

  /** The movements a retraction deletes. */
  function RemovedMovements(ms: seq<Movement>, r: Transaction, kind: TransactionType): seq<Movement> {
    var ids := MatchedIds(ms, r, kind);
    Filter(ms, m => Retracted(ids, m))
  }

  /** No two movements share an id. */
  ghost predicate UniqueIds(ms: seq<Movement>) {
    forall i, j :: 0 <= i < j < |ms| ==> ms[i].id != ms[j].id
  }

  /** With unique ids, retraction deletes exactly the matching movements. */
  lemma RemoveMatchedExactly(ms: seq<Movement>, r: Transaction, kind: TransactionType)
    requires UniqueIds(ms)
    ensures RemoveMatched(ms, r, kind) == Filter(ms, m => !MatchesTransaction(r, kind, m))
  {
    var ids := MatchedIds(ms, r, kind);
    forall i | 0 <= i < |ms| ensures Survives(ids, ms[i]) == !MatchesTransaction(r, kind, ms[i]) {
      if ms[i].id in ids {
        var m :| m in ms && MatchesTransaction(r, kind, m) && m.id == ms[i].id;
        var j :| 0 <= j < |ms| && ms[j] == m;
        assert ms[j].id == ms[i].id;
      }
    }
    FilterCongruent(ms, m => Survives(ids, m), m => !MatchesTransaction(r, kind, m));
  }

  /** Retraction takes away exactly the stock of the deleted movements. */
  lemma RetractionStock(ms: seq<Movement>, r: Transaction, kind: TransactionType, itemId: Id)
    ensures StockOf(RemoveMatched(ms, r, kind), itemId) == StockOf(ms, itemId) - StockOf(RemovedMovements(ms, r, kind), itemId)
  {
    var ids := MatchedIds(ms, r, kind);
    StockPartition(ms, m => Survives(ids, m), m => Retracted(ids, m), itemId);
  }

  /**
   * The stock an accepted sale leaves: what it was, minus what retracting the
   * old record removed, minus the new quantity. When the retracted movements
   * of the item did not add stock (as a sale's own movement does not), the
   * stock stays at least the checked availability minus the quantity, which
   * the check keeps non-negative.
   */
  lemma StockAfterSale(ms: seq<Movement>, existing: Option<Transaction>, mv: Movement, q: real)
    requires mv.quantity == -q && 0.0 < q <= StockOf(ms, mv.itemId)
    requires existing.Some? ==> StockOf(RemovedMovements(ms, existing.value, Sale), mv.itemId) <= 0.0
    ensures var kept := if existing.Some? then RemoveMatched(ms, existing.value, Sale) else ms;
      StockOf(kept + [mv], mv.itemId) >= StockOf(ms, mv.itemId) - q >= 0.0
  {
    var kept := if existing.Some? then RemoveMatched(ms, existing.value, Sale) else ms;
    StockAppend(kept, [mv], mv.itemId);
    StockOfOne(mv, mv.itemId);
    if existing.Some? {
      RetractionStock(ms, existing.value, Sale, mv.itemId);
    }
  }

  /**
   * The worked example: 20 units opened, a sale of 5 leaves 15, and editing
   * that sale to 8 retracts its movement and leaves 12.
   */
  lemma SaleEditExample()
    ensures var opening := Movement("m-1", "item-1", OpeningMovement, 20.0, 10.0, "d0", Some("item-1"));
      var sale := Transaction("sale-1", "item-1", None, 5.0, 15.0, 75.0, None, "d1", 0.0, None, Some(75.0), None);
      var first := Movement("m-2", "item-1", SaleMovement, -5.0, 10.0, "d1", Some("sale-1"));
      var second := Movement("m-3", "item-1", SaleMovement, -8.0, 10.0, "d1", Some("sale-1"));
      && StockOf([opening, first], "item-1") == 15.0
      && RemoveMatched([opening, first], sale, Sale) == [opening]
      && StockOf(RemoveMatched([opening, first], sale, Sale) + [second], "item-1") == 12.0
  {
    var opening := Movement("m-1", "item-1", OpeningMovement, 20.0, 10.0, "d0", Some("item-1"));
    var sale := Transaction("sale-1", "item-1", None, 5.0, 15.0, 75.0, None, "d1", 0.0, None, Some(75.0), None);
    var first := Movement("m-2", "item-1", SaleMovement, -5.0, 10.0, "d1", Some("sale-1"));
    var second := Movement("m-3", "item-1", SaleMovement, -8.0, 10.0, "d1", Some("sale-1"));
    var ms := [opening, first];
    assert ms[..1] == [opening];
    StockOfOne(opening, "item-1");
    assert "item-1" != "sale-1";
    assert !MatchesTransaction(sale, Sale, opening);
    assert MatchesTransaction(sale, Sale, first);
    assert MatchedIds(ms, sale, Sale) == {"m-2"};
    assert "m-1" != "m-2";
    var ids := MatchedIds(ms, sale, Sale);
    assert ms == [opening] + [first];
    FilterAppend([opening], [first], m => Survives(ids, m));
    assert RemoveMatched(ms, sale, Sale) == [opening];
    StockAppend([opening], [second], "item-1");
    StockOfOne(second, "item-1");
  }

  // ---------------------------------------------------------------------
  // Cost recalculation
  // ---------------------------------------------------------------------

  /** The movements `recalculateItemCost(itemId)` averages: the item's, with positive quantity. */
  predicate PositiveFor(itemId: Id, m: Movement) { m.itemId == itemId && m.quantity > 0.0 }

  /** The quantity and cost of each movement, as the weighted average reads them. */
  function ToCostLines(ms: seq<Movement>): (ls: seq<CostLine>)
    ensures |ls| == |ms|
    ensures forall i :: 0 <= i < |ms| ==> ls[i] == CostLine(ms[i].quantity, ms[i].cost)
  {
    seq(|ms|, i requires 0 <= i < |ms| => CostLine(ms[i].quantity, ms[i].cost))
  }

  /** The cost lines of the item's stock-increasing movements. */
  function InflowLines(ms: seq<Movement>, itemId: Id): (ls: seq<CostLine>)
    ensures forall i :: 0 <= i < |ls| ==> ls[i].quantity > 0.0
    ensures forall i :: 0 <= i < |ls| ==>
      exists j :: 0 <= j < |ms| && PositiveFor(itemId, ms[j]) && ls[i] == CostLine(ms[j].quantity, ms[j].cost)
    ensures forall j :: 0 <= j < |ms| && PositiveFor(itemId, ms[j]) ==> CostLine(ms[j].quantity, ms[j].cost) in ls
  {
    var kept := Filter(ms, m => PositiveFor(itemId, m));
    var ls := ToCostLines(kept);
    forall i | 0 <= i < |ls|
      ensures exists j :: 0 <= j < |ms| && PositiveFor(itemId, ms[j]) && ls[i] == CostLine(ms[j].quantity, ms[j].cost)
    {
      var j :| 0 <= j < |ms| && ms[j] == kept[i];
    }
    forall j | 0 <= j < |ms| && PositiveFor(itemId, ms[j]) ensures CostLine(ms[j].quantity, ms[j].cost) in ls {
      var i :| 0 <= i < |kept| && kept[i] == ms[j];
      assert ls[i] == CostLine(ms[j].quantity, ms[j].cost);
    }
    ls
  }

  /**
   * The inflow lines keep the movements' order: a later movement's line
   * follows an earlier one's, and a movement that is not a positive
   * movement of the item contributes no line.
   */
  lemma InflowLinesAppend(ms: seq<Movement>, extra: seq<Movement>, itemId: Id)
    ensures InflowLines(ms + extra, itemId) == InflowLines(ms, itemId) + InflowLines(extra, itemId)
  {
    FilterAppend(ms, extra, m => PositiveFor(itemId, m));
    var a := Filter(ms, m => PositiveFor(itemId, m));
    var b := Filter(extra, m => PositiveFor(itemId, m));
    assert ToCostLines(a + b) == ToCostLines(a) + ToCostLines(b);
  }

  /** One movement gives its line exactly when it is a positive movement of the item. */
  lemma InflowLinesOfOne(m: Movement, itemId: Id)
    ensures InflowLines([m], itemId) == if PositiveFor(itemId, m) then [CostLine(m.quantity, m.cost)] else []
  {
    assert [m][1..] == [];
  }

  /**
   * The cost `recalculateItemCost` leaves on an item: the average rounded to
   * cents when the average is positive and more than 0.01 away from the
   * current cost, the current cost otherwise.
   */
  function RecalculatedCost(cost: real, average: real): (c: real)
    ensures average > 0.0 ==> Abs(c - average) <= 0.01
    ensures average <= 0.0 ==> c == cost
    ensures c == cost || (average > 0.0 && Abs(cost - average) > 0.01 && Abs(c - average) <= 0.005)
    ensures average > 0.0 && Abs(cost - average) > 0.01 ==> c == RoundToCents(average)
    ensures average <= 0.0 || Abs(cost - average) <= 0.01 ==> c == cost
  {
    if average > 0.0 && Abs(cost - average) > 0.01 then RoundToCents(average) else cost
  }

  /** The items after `recalculateItemCost(itemId)`: only the first item with that id changes, and only its cost. */
  function RecalculatedItems(items: seq<Item>, ms: seq<Movement>, itemId: Id): (r: seq<Item>)
    ensures |r| == |items|
    ensures FindIndex(items, itemId, ItemKey).None? ==> r == items
    ensures FindIndex(items, itemId, ItemKey).Some? ==>
              var k := FindIndex(items, itemId, ItemKey).value;
              && r[k] == items[k].(cost := RecalculatedCost(items[k].cost, WeightedAverage(InflowLines(ms, itemId))))
              && forall j :: 0 <= j < |items| && j != k ==> r[j] == items[j]
  {
    match FindIndex(items, itemId, ItemKey)
    case None => items
    case Some(k) =>
      items[k := items[k].(cost := RecalculatedCost(items[k].cost, WeightedAverage(InflowLines(ms, itemId))))]
  }

  /**
   * When every stock-increasing movement of the item was booked at a cost
   * between `lo` and `hi`, the recalculated cost stays within a cent of that
   * range.
   */
  lemma RecalculatedCostInRange(cost: real, ms: seq<Movement>, itemId: Id, lo: real, hi: real)
    requires |InflowLines(ms, itemId)| > 0 && lo > 0.0
    requires forall i :: 0 <= i < |ms| && PositiveFor(itemId, ms[i]) ==> lo <= ms[i].cost <= hi
    ensures lo - 0.01 <= RecalculatedCost(cost, WeightedAverage(InflowLines(ms, itemId))) <= hi + 0.01
  {
    var kept := Filter(ms, m => PositiveFor(itemId, m));
    var ls := InflowLines(ms, itemId);
    forall i | 0 <= i < |ls| ensures lo <= ls[i].cost <= hi {
      assert kept[i] in ms && PositiveFor(itemId, kept[i]);
    }
    WeightedAverageBetween(ls, lo, hi);
  }
}
