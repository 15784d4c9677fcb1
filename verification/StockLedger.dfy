/**
 * The stock rows and the movement ledger as values, with the two transactions
 * of src/inventory/inventory.service.ts as functions on them.
 *
 * `reserves` and `releases` are the two halves of the `stock_movements`
 * collection: its unique (orderId, kind) index is what makes each a map.
 */
module StockLedger {
  import opened Wrappers
  import opened Totals

  type OrderId = nat
  type WarehouseId = nat
  type ProductId = nat

  datatype StockKey = StockKey(warehouse: WarehouseId, product: ProductId)
  datatype Item = Item(product: ProductId, quantity: nat)
  datatype Movement = Movement(warehouse: WarehouseId, items: seq<Item>)

  type Stock = map<StockKey, int>

  datatype Inventory = Inventory(
    stock: Stock,
    reserves: map<OrderId, Movement>,
    releases: map<OrderId, Movement>)

  /** How the transaction of a reserve attempt ends. */
  datatype ReserveOutcome = Committed(after: Inventory) | Duplicate | Short

  function Level(stock: Stock, key: StockKey): int {
    if key in stock then stock[key] else 0
  }

  /** Units of `product` in a list of items. */
  function QtyOf(items: seq<Item>, product: ProductId): nat {
    if items == [] then 0
    else
      var last := items[|items| - 1];
      QtyOf(items[..|items| - 1], product) + if last.product == product then last.quantity else 0
  }

  /** Units a movement takes from (or returns to) one stock row. */
  function QtyAt(movement: Movement, key: StockKey): nat {
    if movement.warehouse == key.warehouse then QtyOf(movement.items, key.product) else 0
  }

  /** The conditional decrements of one reserve attempt, item after item; None as soon as one matches no row. */
  function DebitAll(stock: Stock, warehouse: WarehouseId, items: seq<Item>): Option<Stock> {
    if items == [] then Some(stock)
    else
      match DebitAll(stock, warehouse, items[..|items| - 1])
      case None => None
      case Some(before) =>
        var last := items[|items| - 1];
        var key := StockKey(warehouse, last.product);
        if key in before && before[key] >= last.quantity
        then Some(before[key := before[key] - last.quantity])
        else None
  }

  /** The increments of a release. An update that matches no row changes nothing and raises nothing. */
  function CreditAll(stock: Stock, warehouse: WarehouseId, items: seq<Item>): Stock {
    if items == [] then stock
    else
      var before := CreditAll(stock, warehouse, items[..|items| - 1]);
      var last := items[|items| - 1];
      var key := StockKey(warehouse, last.product);
      if key in before then before[key := before[key] + last.quantity] else before
  }

  /** One atomic reserve attempt: ledger row first, then every decrement, or nothing at all. */
  function ReserveTx(inv: Inventory, order: OrderId, warehouse: WarehouseId, items: seq<Item>): ReserveOutcome {
    if order in inv.reserves then Duplicate
    else
      match DebitAll(inv.stock, warehouse, items)
      case None => Short
      case Some(stock) =>
        Committed(inv.(stock := stock, reserves := inv.reserves[order := Movement(warehouse, items)]))
  }

  /** True when the release transaction has something to give back. */
  predicate CanRelease(inv: Inventory, order: OrderId) {
    order in inv.reserves && order !in inv.releases
  }

  /** The release transaction: a no-op unless the order reserved and has not been released. */
  function ReleaseTx(inv: Inventory, order: OrderId): Inventory {
    if CanRelease(inv, order) then
      var movement := inv.reserves[order];
      inv.(stock := CreditAll(inv.stock, movement.warehouse, movement.items),
           releases := inv.releases[order := movement])
    else inv
  }

  /** A top-up, creating the row when there is none. */
  function AddStock(stock: Stock, key: StockKey, quantity: nat): Stock {
    stock[key := Level(stock, key) + quantity]
  }

  // ---------------------------------------------------------------- one transaction

  /** Every product the items name has a row holding at least what the items ask of it in all. */
  ghost predicate Covers(stock: Stock, warehouse: WarehouseId, items: seq<Item>) {
    forall i :: 0 <= i < |items| ==>
      var key := StockKey(warehouse, items[i].product);
      key in stock && QtyOf(items, items[i].product) <= stock[key]
  }

  /** A successful debit takes exactly the requested units from each row and touches no other. */
  lemma {:induction false} DebitExact(stock: Stock, warehouse: WarehouseId, items: seq<Item>)
    requires DebitAll(stock, warehouse, items).Some?
    ensures var after := DebitAll(stock, warehouse, items).value;
            && after.Keys == stock.Keys
            && (forall k :: k in stock ==> after[k] == stock[k] - QtyAt(Movement(warehouse, items), k))
            && (forall k :: k in stock && 0 <= stock[k] ==> 0 <= after[k])
    ensures forall i :: 0 <= i < |items| ==> StockKey(warehouse, items[i].product) in stock
  {
    if items != [] {
      DebitExact(stock, warehouse, items[..|items| - 1]);
      forall i | 0 <= i < |items| ensures StockKey(warehouse, items[i].product) in stock {
        if i < |items| - 1 {
          assert items[..|items| - 1][i] == items[i];
        }
      }
    }
  }

  lemma {:induction false} QtyOfPrefix(items: seq<Item>, n: nat, product: ProductId)
    requires n <= |items|
    ensures QtyOf(items[..n], product) <= QtyOf(items, product)
  {
    if n < |items| {
      QtyOfPrefix(items[..|items| - 1], n, product);
      assert items[..|items| - 1][..n] == items[..n];
    } else {
      assert items[..n] == items;
    }
  }

  /**
   * The transaction succeeds exactly when the warehouse covers the whole order:
   * a late item cannot fail because of an earlier one unless the two together ask too much.
   */
  lemma {:induction false} DebitIffCovers(stock: Stock, warehouse: WarehouseId, items: seq<Item>)
    ensures DebitAll(stock, warehouse, items).Some? <==> Covers(stock, warehouse, items)
  {
    if items == [] {
      return;
    }
    var n := |items| - 1;
    var front, last := items[..n], items[n];
    DebitIffCovers(stock, warehouse, front);
    if Covers(stock, warehouse, items) {
      forall i | 0 <= i < |front|
        ensures StockKey(warehouse, front[i].product) in stock
        ensures QtyOf(front, front[i].product) <= stock[StockKey(warehouse, front[i].product)]
      {
        assert front[i] == items[i];
        QtyOfPrefix(items, n, items[i].product);
      }
      assert Covers(stock, warehouse, front);
      DebitExact(stock, warehouse, front);
      assert items[n] == last;
    }
    if DebitAll(stock, warehouse, items).Some? {
      DebitExact(stock, warehouse, items);
      DebitExact(stock, warehouse, front);
      forall i | 0 <= i < |items|
        ensures StockKey(warehouse, items[i].product) in stock
        ensures QtyOf(items, items[i].product) <= stock[StockKey(warehouse, items[i].product)]
      {
        var key := StockKey(warehouse, items[i].product);
        if i < n {
          assert front[i] == items[i];
        }
        var before := DebitAll(stock, warehouse, front).value;
        assert before[key] == stock[key] - QtyOf(front, key.product);
        if items[i].product != last.product {
          assert QtyOf(items, key.product) == QtyOf(front, key.product);
          assert QtyOf(front, front[i].product) <= stock[key];
        }
      }
    }
  }

  /** Giving back what was taken restores every row, whatever else the stock map holds. */
  lemma {:induction false} CreditExact(stock: Stock, warehouse: WarehouseId, items: seq<Item>)
    requires forall i :: 0 <= i < |items| ==> StockKey(warehouse, items[i].product) in stock
    ensures var after := CreditAll(stock, warehouse, items);
            && after.Keys == stock.Keys
            && (forall k :: k in stock ==> after[k] == stock[k] + QtyAt(Movement(warehouse, items), k))
  {
    if items != [] {
      var front := items[..|items| - 1];
      forall i | 0 <= i < |front| ensures StockKey(warehouse, front[i].product) in stock {
        assert front[i] == items[i];
      }
      CreditExact(stock, warehouse, front);
    }
  }

  lemma CreditUndoesDebit(stock: Stock, warehouse: WarehouseId, items: seq<Item>)
    requires DebitAll(stock, warehouse, items).Some?
    ensures CreditAll(DebitAll(stock, warehouse, items).value, warehouse, items) == stock
  {
    DebitExact(stock, warehouse, items);
    CreditExact(DebitAll(stock, warehouse, items).value, warehouse, items);
  }

  /** Reserve then release is the identity on stock; releasing again, or reserving again, changes nothing. */
  lemma ReserveReleaseRoundTrip(inv: Inventory, order: OrderId, warehouse: WarehouseId, items: seq<Item>,
                                other: WarehouseId, otherItems: seq<Item>)
    requires order !in inv.releases
    requires ReserveTx(inv, order, warehouse, items).Committed?
    ensures var reserved := ReserveTx(inv, order, warehouse, items).after;
            var released := ReleaseTx(reserved, order);
            && released.stock == inv.stock
            && released.releases == inv.releases[order := Movement(warehouse, items)]
            && ReleaseTx(released, order) == released
            && ReserveTx(reserved, order, other, otherItems) == Duplicate
            && ReserveTx(released, order, other, otherItems) == Duplicate
  {
    CreditUndoesDebit(inv.stock, warehouse, items);
  }

  // ---------------------------------------------------------------- conservation

  ghost function MovedAt(movements: map<OrderId, Movement>, key: StockKey): map<nat, int> {
    map o | o in movements :: QtyAt(movements[o], key)
  }

  /** A reserved row keeps existing, so the unchecked update of a release always finds it. */
  ghost predicate RowsExist(inv: Inventory) {
    forall o, i {:trigger inv.reserves[o].items[i]} :: o in inv.reserves && 0 <= i < |inv.reserves[o].items| ==>
      StockKey(inv.reserves[o].warehouse, inv.reserves[o].items[i].product) in inv.stock
  }

  /** A release presupposes a reserve of the same order and is a copy of it. */
  ghost predicate ReleasesCopyReserves(inv: Inventory) {
    forall o :: o in inv.releases ==> o in inv.reserves && inv.releases[o] == inv.reserves[o]
  }

  /** Nothing appears or vanishes: stock is what was supplied, less what is reserved, plus what came back. */
  ghost predicate Balanced(inv: Inventory, supplied: Stock) {
    forall key: StockKey {:trigger Level(inv.stock, key)} ::
      Level(inv.stock, key) ==
      Level(supplied, key) - Total(MovedAt(inv.reserves, key)) + Total(MovedAt(inv.releases, key))
  }

  ghost predicate NoOversell(inv: Inventory) {
    forall key :: key in inv.stock ==> 0 <= inv.stock[key]
  }

  ghost predicate LedgerOk(inv: Inventory, supplied: Stock) {
    RowsExist(inv) && ReleasesCopyReserves(inv) && Balanced(inv, supplied) && NoOversell(inv)
  }

  lemma MovedInsert(movements: map<OrderId, Movement>, order: OrderId, movement: Movement, key: StockKey)
    requires order !in movements
    ensures Total(MovedAt(movements[order := movement], key)) == Total(MovedAt(movements, key)) + QtyAt(movement, key)
  {
    var before := MovedAt(movements, key);
    assert MovedAt(movements[order := movement], key) == before[order := QtyAt(movement, key)];
    TotalInsert(before, order, QtyAt(movement, key));
  }

  lemma ReserveKeepsLedger(inv: Inventory, supplied: Stock, order: OrderId, warehouse: WarehouseId, items: seq<Item>)
    requires LedgerOk(inv, supplied)
    requires ReserveTx(inv, order, warehouse, items).Committed?
    ensures LedgerOk(ReserveTx(inv, order, warehouse, items).after, supplied)
  {
    var after := ReserveTx(inv, order, warehouse, items).after;
    var movement := Movement(warehouse, items);
    DebitExact(inv.stock, warehouse, items);
    forall key: StockKey
      ensures Level(after.stock, key) ==
              Level(supplied, key) - Total(MovedAt(after.reserves, key)) + Total(MovedAt(after.releases, key))
    {
      MovedInsert(inv.reserves, order, movement, key);
      assert Level(inv.stock, key) ==
             Level(supplied, key) - Total(MovedAt(inv.reserves, key)) + Total(MovedAt(inv.releases, key));
      if key !in inv.stock {
        NoRowNoQty(inv.stock, warehouse, items, key);
      }
    }
  }

  lemma {:induction false} NoRowNoQty(stock: Stock, warehouse: WarehouseId, items: seq<Item>, key: StockKey)
    requires forall i :: 0 <= i < |items| ==> StockKey(warehouse, items[i].product) in stock
    requires key !in stock
    ensures QtyAt(Movement(warehouse, items), key) == 0
  {
    if items != [] && warehouse == key.warehouse {
      var front := items[..|items| - 1];
      forall i | 0 <= i < |front| ensures StockKey(warehouse, front[i].product) in stock {
        assert front[i] == items[i];
      }
      NoRowNoQty(stock, warehouse, front, key);
      assert StockKey(warehouse, items[|items| - 1].product) in stock;
    }
  }

  lemma ReleaseKeepsLedger(inv: Inventory, supplied: Stock, order: OrderId)
    requires LedgerOk(inv, supplied)
    ensures LedgerOk(ReleaseTx(inv, order), supplied)
    ensures ReleaseTx(inv, order).stock.Keys == inv.stock.Keys
  {
    if CanRelease(inv, order) {
      var after := ReleaseTx(inv, order);
      var movement := inv.reserves[order];
      CreditExact(inv.stock, movement.warehouse, movement.items);
      forall key: StockKey
        ensures Level(after.stock, key) ==
                Level(supplied, key) - Total(MovedAt(after.reserves, key)) + Total(MovedAt(after.releases, key))
      {
        MovedInsert(inv.releases, order, movement, key);
        assert Level(inv.stock, key) ==
               Level(supplied, key) - Total(MovedAt(inv.reserves, key)) + Total(MovedAt(inv.releases, key));
        if key !in inv.stock {
          NoRowNoQty(inv.stock, movement.warehouse, movement.items, key);
        }
      }
    }
  }

  /** A top-up raises one row by its quantity, from nothing if there was no row, and no other. */
  lemma AddExact(stock: Stock, key: StockKey, quantity: nat, k: StockKey)
    ensures Level(AddStock(stock, key, quantity), k) == Level(stock, k) + if k == key then quantity else 0
  {
  }

  lemma AddKeepsLedger(inv: Inventory, supplied: Stock, key: StockKey, quantity: nat)
    requires LedgerOk(inv, supplied)
    ensures LedgerOk(inv.(stock := AddStock(inv.stock, key, quantity)), AddStock(supplied, key, quantity))
  {
    var after := inv.(stock := AddStock(inv.stock, key, quantity));
    forall k: StockKey
      ensures Level(after.stock, k) ==
              Level(AddStock(supplied, key, quantity), k) - Total(MovedAt(after.reserves, k))
                  + Total(MovedAt(after.releases, k))
    {
      assert Level(inv.stock, k) ==
             Level(supplied, k) - Total(MovedAt(inv.reserves, k)) + Total(MovedAt(inv.releases, k));
    }
  }

  /** Units of reservations that have not been given back, order by order. */
  ghost function HeldAt(inv: Inventory, key: StockKey): map<nat, int> {
    map o | o in inv.reserves && o !in inv.releases :: QtyAt(inv.reserves[o], key)
  }

  /** At every moment stock is supply less the units still held. */
  lemma StockIsSupplyLessHeld(inv: Inventory, supplied: Stock, key: StockKey)
    requires LedgerOk(inv, supplied)
    ensures Level(inv.stock, key) == Level(supplied, key) - Total(HeldAt(inv, key))
  {
    var reserved, released := MovedAt(inv.reserves, key), MovedAt(inv.releases, key);
    assert Level(inv.stock, key) == Level(supplied, key) - Total(reserved) + Total(released);
    assert reserved - released.Keys == HeldAt(inv, key);
    TotalParts(reserved, released, HeldAt(inv, key));
  }

  // ---------------------------------------------------------------- choosing a warehouse

  /** The pre-filter on the joined stock rows of one warehouse: every item has a row with enough of it. */
  predicate HasSufficientStock(stock: Stock, warehouse: WarehouseId, items: seq<Item>) {
    forall item :: item in items ==>
      var key := StockKey(warehouse, item.product);
      key in stock && stock[key] >= item.quantity
  }

  /** Warehouses in order of distance, less those that visibly cannot serve the order. */
  function Candidates(stock: Stock, ranked: seq<WarehouseId>, items: seq<Item>): seq<WarehouseId> {
    if ranked == [] then []
    else
      var rest := Candidates(stock, ranked[..|ranked| - 1], items);
      var last := ranked[|ranked| - 1];
      if HasSufficientStock(stock, last, items) then rest + [last] else rest
  }

  ghost predicate DistinctProducts(items: seq<Item>) {
    forall i, j :: 0 <= i < j < |items| ==> items[i].product != items[j].product
  }

  lemma {:induction false} QtyOfAbsent(items: seq<Item>, product: ProductId)
    requires forall i :: 0 <= i < |items| ==> items[i].product != product
    ensures QtyOf(items, product) == 0
  {
    if items != [] {
      var front := items[..|items| - 1];
      forall i | 0 <= i < |front| ensures front[i].product != product {
        assert front[i] == items[i];
      }
      QtyOfAbsent(front, product);
    }
  }

  lemma {:induction false} QtyOfDistinct(items: seq<Item>, i: nat)
    requires DistinctProducts(items) && i < |items|
    ensures QtyOf(items, items[i].product) == items[i].quantity
  {
    var front := items[..|items| - 1];
    if i == |items| - 1 {
      QtyOfAbsent(front, items[i].product);
    } else {
      QtyOfDistinct(front, i);
      assert front[i] == items[i];
    }
  }

  /** For the orders the API accepts (no product twice) the pre-filter and the transaction agree exactly. */
  lemma PreFilterAgrees(stock: Stock, warehouse: WarehouseId, items: seq<Item>)
    requires DistinctProducts(items)
    ensures HasSufficientStock(stock, warehouse, items) <==> DebitAll(stock, warehouse, items).Some?
  {
    DebitIffCovers(stock, warehouse, items);
    forall i | 0 <= i < |items| ensures QtyOf(items, items[i].product) == items[i].quantity {
      QtyOfDistinct(items, i);
    }
    if HasSufficientStock(stock, warehouse, items) {
      forall i | 0 <= i < |items| ensures StockKey(warehouse, items[i].product) in stock {
        assert items[i] in items;
      }
      assert Covers(stock, warehouse, items);
    }
    if Covers(stock, warehouse, items) {
      forall item | item in items
        ensures StockKey(warehouse, item.product) in stock && stock[StockKey(warehouse, item.product)] >= item.quantity
      {
        var i :| 0 <= i < |items| && items[i] == item;
      }
    }
  }

  /** Without distinct products the pre-filter is too generous: each item fits alone, the two together do not. */
  lemma PreFilterTooGenerous()
    ensures var stock: Stock := map[StockKey(1, 7) := 3];
            var items := [Item(7, 2), Item(7, 2)];
            HasSufficientStock(stock, 1, items) && DebitAll(stock, 1, items) == None
  {
  }

  /** The filter keeps exactly the warehouses that look sufficient, and it keeps their order: it works part by part. */
  lemma {:induction false} CandidatesFilter(stock: Stock, front: seq<WarehouseId>, back: seq<WarehouseId>,
                                            items: seq<Item>)
    ensures Candidates(stock, front + back, items) == Candidates(stock, front, items) + Candidates(stock, back, items)
    ensures forall w :: w in Candidates(stock, back, items) <==> w in back && HasSufficientStock(stock, w, items)
  {
    if back == [] {
      assert front + back == front;
    } else {
      var n := |back| - 1;
      assert (front + back)[..|front| + n] == front + back[..n] && back == back[..n] + [back[n]];
      CandidatesFilter(stock, front, back[..n], items);
    }
  }

  /** `warehouse` can serve the whole order and no warehouse ranked before it can. */
  ghost predicate NearestFit(stock: Stock, ranked: seq<WarehouseId>, items: seq<Item>, warehouse: WarehouseId) {
    exists i :: 0 <= i < |ranked| && ranked[i] == warehouse && DebitAll(stock, ranked[i], items).Some?
                && forall j :: 0 <= j < i ==> DebitAll(stock, ranked[j], items) == None
  }

  ghost predicate NoFit(stock: Stock, ranked: seq<WarehouseId>, items: seq<Item>) {
    forall i :: 0 <= i < |ranked| ==> DebitAll(stock, ranked[i], items) == None
  }

  /** The pre-filter never drops a warehouse that could serve the order. */
  lemma FitLooksSufficient(stock: Stock, warehouse: WarehouseId, items: seq<Item>)
    requires DebitAll(stock, warehouse, items).Some?
    ensures HasSufficientStock(stock, warehouse, items)
  {
    DebitIffCovers(stock, warehouse, items);
    forall item | item in items
      ensures StockKey(warehouse, item.product) in stock && stock[StockKey(warehouse, item.product)] >= item.quantity
    {
      var i :| 0 <= i < |items| && items[i] == item;
      QtyOfPrefix(items, i + 1, item.product);
      assert items[..i + 1][..i] == items[..i];
    }
  }

  /** Trying the candidates in turn finds the nearest warehouse that fits, or shows that there is none. */
  lemma {:induction false} FirstFitIsNearest(stock: Stock, ranked: seq<WarehouseId>, items: seq<Item>, k: nat)
    requires var candidates := Candidates(stock, ranked, items);
             k <= |candidates| && forall j :: 0 <= j < k ==> DebitAll(stock, candidates[j], items) == None
    ensures var candidates := Candidates(stock, ranked, items);
            if k < |candidates|
            then DebitAll(stock, candidates[k], items).Some? ==> NearestFit(stock, ranked, items, candidates[k])
            else NoFit(stock, ranked, items)
  {
    if ranked != [] {
      var n := |ranked| - 1;
      var front, candidates := ranked[..n], Candidates(stock, ranked, items);
      var rest := Candidates(stock, front, items);
      var m := if k < |rest| then k else |rest|;
      assert forall j :: 0 <= j < |rest| ==> rest[j] == candidates[j];
      assert forall j :: 0 <= j < n ==> front[j] == ranked[j];
      FirstFitIsNearest(stock, front, items, m);
      if DebitAll(stock, ranked[n], items).Some? {
        FitLooksSufficient(stock, ranked[n], items);
        assert candidates == rest + [ranked[n]] && candidates[|rest|] == ranked[n];
      }
      if k < |rest| && DebitAll(stock, candidates[k], items).Some? {
        var i :| 0 <= i < |front| && front[i] == candidates[k] && DebitAll(stock, front[i], items).Some?
                 && forall j :: 0 <= j < i ==> DebitAll(stock, front[j], items) == None;
        assert ranked[i] == candidates[k];
      } else if k < |candidates| && DebitAll(stock, candidates[k], items).Some? {
        assert ranked[n] == candidates[k] && NoFit(stock, front, items);
      } else if k == |candidates| {
        forall i | 0 <= i < |ranked| ensures DebitAll(stock, ranked[i], items) == None {
          if i < n {
            assert front[i] == ranked[i];
          }
        }
      }
    }
  }
}
