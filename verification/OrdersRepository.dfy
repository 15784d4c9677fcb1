/** Order documents and the two atomic updates of src/orders/orders.repository.ts. */
module Orders {
  import opened Wrappers
  import opened OrderStatuses
  import opened StockLedger
  import opened Charges

  /** `nearest` ranks the warehouses by distance from the shipping coordinates, which are frozen at acceptance. */
  datatype Order = Order(
    items: seq<Item>,
    nearest: seq<WarehouseId>,
    totalAmount: nat,
    status: OrderStatus,
    warehouseId: Option<WarehouseId>,
    paymentResult: Option<PaymentResult>,
    failureCode: Option<FailureCode>,
    sweepLeaseUntil: Option<nat>,
    sweepAttempts: nat,
    updatedAt: nat)

  /** Fields a transition may write next to the status; None leaves the stored value alone. */
  datatype TransitionPatch = TransitionPatch(
    warehouseId: Option<WarehouseId>,
    paymentResult: Option<PaymentResult>,
    failureCode: Option<FailureCode>)

  const NO_PATCH := TransitionPatch(None, None, None)

  type Orders = map<OrderId, Order>

  function NewOrder(items: seq<Item>, nearest: seq<WarehouseId>, totalAmount: nat, now: nat): Order {
    Order(items, nearest, totalAmount, PENDING, None, None, None, None, 0, now)
  }

  function Patched<T>(stored: Option<T>, written: Option<T>): Option<T> {
    if written.Some? then written else stored
  }

  /** What the patch names is written over what was there; what it does not name, and what is frozen, stays. */
  predicate Writes(patch: TransitionPatch, before: Order, after: Order) {
    && after.items == before.items && after.nearest == before.nearest && after.totalAmount == before.totalAmount
    && (patch.warehouseId.Some? ==> after.warehouseId == patch.warehouseId)
    && (patch.warehouseId == None ==> after.warehouseId == before.warehouseId)
    && (patch.paymentResult.Some? ==> after.paymentResult == patch.paymentResult)
    && (patch.paymentResult == None ==> after.paymentResult == before.paymentResult)
    && (patch.failureCode.Some? ==> after.failureCode == patch.failureCode)
    && (patch.failureCode == None ==> after.failureCode == before.failureCode)
  }

  /** True when the compare-and-swap matches the document. */
  predicate Matches(orders: Orders, order: OrderId, from: OrderStatus) {
    order in orders && orders[order].status == from
  }

  /** The document a matching compare-and-swap writes: the claim is dropped and the timestamp moves. */
  function Advanced(doc: Order, to: OrderStatus, patch: TransitionPatch, now: nat): Order {
    doc.(status := to,
         warehouseId := Patched(doc.warehouseId, patch.warehouseId),
         paymentResult := Patched(doc.paymentResult, patch.paymentResult),
         failureCode := Patched(doc.failureCode, patch.failureCode),
         sweepLeaseUntil := None,
         updatedAt := now)
  }

  function Transitioned(orders: Orders, order: OrderId, from: OrderStatus, to: OrderStatus,
                        patch: TransitionPatch, now: nat): Orders {
    if Matches(orders, order, from) then orders[order := Advanced(orders[order], to, patch, now)] else orders
  }

  /** Old enough and not under somebody's lease. */
  predicate Stale(doc: Order, staleAfterMs: nat, now: nat) {
    doc.updatedAt + staleAfterMs <= now
    && (doc.sweepLeaseUntil == None || doc.sweepLeaseUntil.value <= now)
  }

  predicate Claimable(orders: Orders, order: OrderId, status: OrderStatus, staleAfterMs: nat, now: nat) {
    order in orders && orders[order].status == status && Stale(orders[order], staleAfterMs, now)
  }

  /** The document the claim's sort picks: claimable, and no claimable one was updated earlier. */
  predicate IsOldestClaimable(orders: Orders, order: OrderId, status: OrderStatus, staleAfterMs: nat, now: nat) {
    Claimable(orders, order, status, staleAfterMs, now)
    && forall o :: o in orders && Claimable(orders, o, status, staleAfterMs, now) ==>
         orders[order].updatedAt <= orders[o].updatedAt
  }

  /** A claim is not progress: the timestamp of the last state change stays. */
  function Claimed(doc: Order, leaseMs: nat, now: nat): Order {
    doc.(sweepLeaseUntil := Some(now + leaseMs), sweepAttempts := doc.sweepAttempts + 1)
  }

  class OrdersRepository {
    var rows: Orders

    constructor (initial: Orders)
      ensures rows == initial
    {
      rows := initial;
    }

    method FindById(order: OrderId) returns (doc: Option<Order>)
      ensures doc == if order in rows then Some(rows[order]) else None
    {
      doc := if order in rows then Some(rows[order]) else None;
    }

    /** The compare-and-swap shared by worker and sweeper. */
    method Transition(order: OrderId, from: OrderStatus, to: OrderStatus, patch: TransitionPatch, now: nat)
      returns (won: bool)
      modifies this
      ensures won == old(Matches(rows, order, from))
      ensures rows == Transitioned(old(rows), order, from, to, patch, now)
      ensures won ==>
                && rows[order].status == to && rows[order].sweepLeaseUntil == None && rows[order].updatedAt == now
                && rows[order].sweepAttempts == old(rows)[order].sweepAttempts
      ensures won ==> Writes(patch, old(rows)[order], rows[order])
    {
      won := order in rows && rows[order].status == from;
      if won {
        rows := rows[order := Advanced(rows[order], to, patch, now)];
      }
    }

    /** Claims the stale order of this status that was updated longest ago, if there is one. */
    method ClaimStale(status: OrderStatus, staleAfterMs: nat, leaseMs: nat, now: nat) returns (claimed: Option<OrderId>)
      modifies this
      ensures claimed == None ==>
                rows == old(rows) && forall o :: !Claimable(old(rows), o, status, staleAfterMs, now)
      ensures claimed.Some? ==>
                && IsOldestClaimable(old(rows), claimed.value, status, staleAfterMs, now)
                && rows == old(rows)[claimed.value := Claimed(old(rows)[claimed.value], leaseMs, now)]
                && rows[claimed.value].sweepLeaseUntil == Some(now + leaseMs)
                && rows[claimed.value].sweepAttempts == old(rows)[claimed.value].sweepAttempts + 1
                && rows[claimed.value].updatedAt == old(rows)[claimed.value].updatedAt
    {
      var unseen := rows.Keys;
      claimed := None;
      while unseen != {}
        invariant unseen <= rows.Keys && rows == old(rows)
        invariant claimed == None ==> forall o :: o in rows.Keys - unseen ==>
                  !Claimable(rows, o, status, staleAfterMs, now)
        invariant claimed.Some? ==>
                    && Claimable(rows, claimed.value, status, staleAfterMs, now)
                    && forall o :: o in rows.Keys - unseen && Claimable(rows, o, status, staleAfterMs, now) ==>
                         rows[claimed.value].updatedAt <= rows[o].updatedAt
        decreases |unseen|
      {
        var o :| o in unseen;
        if Claimable(rows, o, status, staleAfterMs, now)
           && (claimed == None || rows[o].updatedAt < rows[claimed.value].updatedAt) {
          claimed := Some(o);
        }
        unseen := unseen - {o};
      }
      if claimed.Some? {
        rows := rows[claimed.value := Claimed(rows[claimed.value], leaseMs, now)];
      }
    }
  }
}
