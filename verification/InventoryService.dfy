/** The mutable side of src/inventory/inventory.service.ts: each transaction as one method. */
module Inventories {
  import opened Wrappers
  import opened StockLedger

  /** What one reserve transaction reports to the loop over candidates. */
  datatype Attempt = Reserved | DuplicateKey | InsufficientStock

  /** Once a decrement has matched nothing, the rest of the items cannot repair the transaction. */
  lemma {:induction false} DebitStaysFailed(stock: Stock, warehouse: WarehouseId, items: seq<Item>, n: nat)
    requires n <= |items| && DebitAll(stock, warehouse, items[..n]) == None
    ensures DebitAll(stock, warehouse, items) == None
  {
    if n == |items| {
      assert items[..n] == items;
    } else {
      assert items[..|items| - 1][..n] == items[..n];
      DebitStaysFailed(stock, warehouse, items[..|items| - 1], n);
    }
  }

  class InventoryService {
    var stock: Stock
    var reserves: map<OrderId, Movement>
    var releases: map<OrderId, Movement>

    function Contents(): Inventory
      reads this
    {
      Inventory(stock, reserves, releases)
    }

    constructor (initial: Stock)
      ensures Contents() == Inventory(initial, map[], map[])
    {
      stock, reserves, releases := initial, map[], map[];
    }

    method FindReserve(order: OrderId) returns (row: Option<Movement>)
      ensures row == if order in reserves then Some(reserves[order]) else None
    {
      row := if order in reserves then Some(reserves[order]) else None;
    }

    /**
     * One reserve transaction. The ledger row is written before any decrement;
     * a decrement that matches no row aborts, putting back row and quantities.
     */
    method TryReserveAt(order: OrderId, warehouse: WarehouseId, items: seq<Item>) returns (attempt: Attempt)
      modifies this
      ensures match ReserveTx(old(Contents()), order, warehouse, items)
              case Committed(after) => attempt == Reserved && Contents() == after
              case Duplicate => attempt == DuplicateKey && Contents() == old(Contents())
              case Short => attempt == InsufficientStock && Contents() == old(Contents())
    {
      if order in reserves {
        return DuplicateKey;
      }
      var stockAtStart, reservesAtStart := stock, reserves;
      reserves := reserves[order := Movement(warehouse, items)];
      var i := 0;
      while i < |items|
        invariant 0 <= i <= |items|
        invariant DebitAll(stockAtStart, warehouse, items[..i]) == Some(stock)
        invariant reserves == reservesAtStart[order := Movement(warehouse, items)]
        invariant releases == old(releases)
      {
        var key := StockKey(warehouse, items[i].product);
        assert items[..i + 1][..i] == items[..i];
        if !(key in stock && stock[key] >= items[i].quantity) {
          DebitStaysFailed(stockAtStart, warehouse, items, i + 1);
          stock, reserves := stockAtStart, reservesAtStart;
          return InsufficientStock;
        }
        stock := stock[key := stock[key] - items[i].quantity];
        i := i + 1;
      }
      assert items[..i] == items;
      return Reserved;
    }

    /** The release transaction. */
    method ReleaseForOrder(order: OrderId) returns (released: bool)
      modifies this
      ensures Contents() == ReleaseTx(old(Contents()), order)
      ensures released == CanRelease(old(Contents()), order)
    {
      if order !in reserves {
        return false;
      }
      var reserve := reserves[order];
      if order in releases {
        return false;
      }
      releases := releases[order := reserve];
      var i := 0;
      while i < |reserve.items|
        invariant 0 <= i <= |reserve.items|
        invariant stock == CreditAll(old(stock), reserve.warehouse, reserve.items[..i])
        invariant reserves == old(reserves) && releases == old(releases)[order := reserve]
      {
        var key := StockKey(reserve.warehouse, reserve.items[i].product);
        assert reserve.items[..i + 1][..i] == reserve.items[..i];
        if key in stock {
          stock := stock[key := stock[key] + reserve.items[i].quantity];
        }
        i := i + 1;
      }
      assert reserve.items[..i] == reserve.items;
      return true;
    }

    /** Warehouses that looked able to serve the whole order, still in order of distance. */
    method FindCandidateWarehouses(ranked: seq<WarehouseId>, items: seq<Item>) returns (candidates: seq<WarehouseId>)
      ensures candidates == Candidates(stock, ranked, items)
    {
      candidates := [];
      var i := 0;
      while i < |ranked|
        invariant 0 <= i <= |ranked|
        invariant candidates == Candidates(stock, ranked[..i], items)
      {
        assert ranked[..i + 1][..i] == ranked[..i];
        if HasSufficientStock(stock, ranked[i], items) {
          candidates := candidates + [ranked[i]];
        }
        i := i + 1;
      }
      assert ranked[..i] == ranked;
    }

    /** src/mockdata/mockdata-stock.service.ts: an upserting increment. */
    method AddUnits(key: StockKey, quantity: nat)
      modifies this
      ensures Contents() == old(Contents()).(stock := AddStock(old(stock), key, quantity))
      ensures forall k :: Level(stock, k) == Level(old(stock), k) + if k == key then quantity else 0
    {
      stock := stock[key := Level(stock, key) + quantity];
    }
  }
}
