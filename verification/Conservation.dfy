/**
 * Where the units are. At every moment the shelves hold what was supplied less
 * what orders hold; once everything has settled, less exactly what was sold.
 */
module Conservation {
  import opened Wrappers
  import opened Totals
  import opened OrderStatuses
  import opened StockLedger
  import opened Orders
  import opened SagaProtocol
  import opened SagaInvariant
  import opened Obligations
  import opened Stranding

  /** Units of one row that a completed order was served with, read off the order document alone. */
  function ServedFrom(order: Order, key: StockKey): nat {
    if order.warehouseId == Some(key.warehouse) then QtyOf(order.items, key.product) else 0
  }

  ghost function SoldAt(w: World, key: StockKey): map<nat, int> {
    map o | o in w.orders && w.orders[o].status == COMPLETED :: ServedFrom(w.orders[o], key)
  }

  /** Units held by orders that did not move on and that no release has reached. */
  ghost function StrandedAt(w: World, key: StockKey): map<nat, int> {
    map o | o in w.orders && Owed(w, o) && o in w.inventory.reserves :: QtyAt(w.inventory.reserves[o], key)
  }

  ghost predicate AllTerminal(w: World) {
    forall o :: o in w.orders ==> IsTerminal(w.orders[o].status)
  }

  ghost predicate NoDeliveries(w: World) {
    forall a :: a in w.actors ==> !IsDelivery(w.actors[a].pc)
  }

  /**
   * When every order is terminal, the units missing from the shelves were sold
   * or are stranded; no hypothesis on the queue is needed for this much.
   */
  lemma SettledStock(w: World, key: StockKey)
    requires Inv(w) && AllTerminal(w)
    ensures Level(w.inventory.stock, key) ==
            Level(w.supplied, key) - Total(SoldAt(w, key)) - Total(StrandedAt(w, key))
  {
    StockIsSupplyLessHeld(w.inventory, w.supplied, key);
    SoldOrStranded(w, key);
    TotalParts(HeldAt(w.inventory, key), SoldAt(w, key), StrandedAt(w, key));
  }

  /** What a settled order still holds it was either served with or has lost. */
  lemma SettledHolds(o: OrderId, v: View, key: StockKey)
    requires OrderOk(o, v) && IsTerminal(v.order.status)
    ensures v.reserve.Some? && v.release == None <==> v.order.status == COMPLETED || Owes(v)
    ensures v.order.status == COMPLETED ==> QtyAt(v.reserve.value, key) == ServedFrom(v.order, key)
  {
  }

  lemma SettledOrder(w: World, o: OrderId, key: StockKey)
    requires Inv(w) && AllTerminal(w)
    ensures o in HeldAt(w.inventory, key) <==> o in SoldAt(w, key) || o in StrandedAt(w, key)
    ensures !(o in SoldAt(w, key) && o in StrandedAt(w, key))
    ensures o in SoldAt(w, key) ==> HeldAt(w.inventory, key)[o] == SoldAt(w, key)[o]
    ensures o in StrandedAt(w, key) ==> HeldAt(w.inventory, key)[o] == StrandedAt(w, key)[o]
  {
    if o in w.orders {
      assert OrderOk(o, ViewOf(w, o));
      SettledHolds(o, ViewOf(w, o), key);
    }
  }

  lemma SoldOrStranded(w: World, key: StockKey)
    requires Inv(w) && AllTerminal(w)
    ensures var held, sold := HeldAt(w.inventory, key), SoldAt(w, key);
            && (forall o :: o in sold ==> o in held && held[o] == sold[o])
            && StrandedAt(w, key) == held - sold.Keys
  {
    forall o
      ensures o in HeldAt(w.inventory, key) <==> o in SoldAt(w, key) || o in StrandedAt(w, key)
      ensures !(o in SoldAt(w, key) && o in StrandedAt(w, key))
      ensures o in SoldAt(w, key) ==> HeldAt(w.inventory, key)[o] == SoldAt(w, key)[o]
      ensures o in StrandedAt(w, key) ==> HeldAt(w.inventory, key)[o] == StrandedAt(w, key)[o]
    {
      SettledOrder(w, o, key);
    }
  }

  ghost predicate NoRescuers(w: World) {
    forall a :: a in w.actors ==> !IsRescuer(w.actors[a].pc)
  }

  /** When every order is terminal and nobody is on the way to a release, stranded means doomed. */
  lemma StrandedAreDoomed(w: World, o: OrderId, key: StockKey)
    requires Inv(w) && AllTerminal(w) && NoRescuers(w)
    ensures o in StrandedAt(w, key) <==> Doomed(w, o)
  {
    if Owed(w, o) {
      assert w.orders[o].status == FAILED;
      forall a ensures !Rescues(w, a, o) {
      }
    }
  }

  /**
   * At rest, stock is supply less sales on every shelf if no order is doomed;
   * and the orders that lost stock are exactly the doomed ones.
   */
  lemma StockAtRest(w: World, key: StockKey)
    requires Inv(w) && AllTerminal(w) && NoRescuers(w)
    ensures forall o :: o in StrandedAt(w, key) <==> Doomed(w, o)
    ensures NoneDoomed(w) ==> Level(w.inventory.stock, key) == Level(w.supplied, key) - Total(SoldAt(w, key))
  {
    SettledStock(w, key);
    forall o ensures o in StrandedAt(w, key) <==> Doomed(w, o) {
      StrandedAreDoomed(w, o, key);
    }
    if NoneDoomed(w) {
      assert StrandedAt(w, key) == map[];
    }
  }

  /**
   * End to end, for any number of orders, deliveries, sweepers, crashes and
   * top-ups: if no step takes away the last one who would return the stock of a
   * failed order, then once all orders are terminal and nobody is on the way to a
   * release, every stock row holds what was supplied to it less what completed
   * orders took from it.
   */
  lemma ConservationUnlessDoomed(w: World, steps: seq<Step>, key: StockKey)
    requires Initial(w) && ValidRun(w, steps) && NeverDooms(w, steps)
    requires AllTerminal(Run(w, steps)) && NoRescuers(Run(w, steps))
    ensures var end := Run(w, steps);
            && Level(end.inventory.stock, key) == Level(end.supplied, key) - Total(SoldAt(end, key))
            && 0 <= Level(end.inventory.stock, key)
  {
    InitialInv(w);
    RunKeepsInv(w, steps);
    NoneDoomedIff(w, steps);
    NoneDoomedAtEnd(w, steps);
    StockAtRest(Run(w, steps), key);
  }

  /** Under R it takes only that no delivery is live, because an order that owes always has one. */
  lemma EndToEndConservation(w: World, steps: seq<Step>, key: StockKey)
    requires Initial(w) && ValidRun(w, steps) && QueueNeverGivesUp(steps)
    requires AllTerminal(Run(w, steps)) && NoDeliveries(Run(w, steps))
    ensures var end := Run(w, steps);
            && Level(end.inventory.stock, key) == Level(end.supplied, key) - Total(SoldAt(end, key))
            && 0 <= Level(end.inventory.stock, key)
  {
    var end := Run(w, steps);
    InitialInv(w);
    RunKeepsInv(w, steps);
    ReachableObligationsMet(w, steps);
    SettledStock(end, key);
    forall o ensures !Owed(end, o) {
      assert !HasDelivery(end, o);
    }
    assert StrandedAt(end, key) == map[];
  }
}
