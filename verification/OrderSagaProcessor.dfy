/** The saga worker (src/orders/order-saga.processor.ts) under arbitrary interference. */
module SagaProcessors {
  import opened Wrappers
  import opened OrderStatuses
  import opened StockLedger
  import opened Inventories
  import opened Charges
  import opened Orders
  import opened SagaProtocol
  import opened SagaInvariant
  import opened Histories
  import opened Deliveries
  import opened Backends
  import opened Operations
  import opened Rankings

  // ---------------------------------------------------------------- undisturbed deliveries

  /** The order is reserved already, or some warehouse can serve all of it. */
  ghost predicate Servable(inventory: Inventory, o: OrderId, order: Order) {
    o in inventory.reserves || !NoFit(inventory.stock, order.nearest, order.items)
  }

  /** The customer is found, and the recorded charge went through or, if there is none, a new one does. */
  predicate Pays(charge: Option<Charge>, customerFound: bool, declined: bool) {
    customerFound && if charge.Some? then charge.value.status == SUCCEEDED else !declined
  }

  function AfterPayment(paid: bool): OrderStatus {
    if paid then PAYMENT_AUTHORIZED else COMPENSATING
  }

  /** What one pass of the loop makes of a live order. */
  function NextStatus(status: OrderStatus, served: bool, paid: bool): OrderStatus
    requires !IsTerminal(status)
  {
    match status
    case PENDING => if served then STOCK_RESERVED else FAILED
    case STOCK_RESERVED => AfterPayment(paid)
    case PAYMENT_AUTHORIZED => COMPLETED
    case COMPENSATING => COMPENSATED
  }

  /** Where the order ends. */
  function Ending(status: OrderStatus, served: bool, paid: bool): OrderStatus {
    match status
    case PENDING => if !served then FAILED else if paid then COMPLETED else COMPENSATED
    case STOCK_RESERVED => if paid then COMPLETED else COMPENSATED
    case PAYMENT_AUTHORIZED => COMPLETED
    case COMPENSATING => COMPENSATED
    case _ => status
  }

  /** Only this order moved: to FAILED exactly if nobody can serve it, else it got its own or the nearest warehouse. */
  ghost predicate Served(before: Orders, inventory: Inventory, after: Orders, o: OrderId)
    requires o in before
  {
    && Settles(before, after, o, if Servable(inventory, o, before[o]) then STOCK_RESERVED else FAILED)
    && (after[o].status == FAILED ==> after[o].failureCode == Some(OUT_OF_STOCK))
    && (after[o].status == STOCK_RESERVED ==>
          && after[o].warehouseId.Some?
          && var warehouse := after[o].warehouseId.value;
             if o in inventory.reserves then warehouse == inventory.reserves[o].warehouse
             else NearestFit(inventory.stock, before[o].nearest, before[o].items, warehouse))
  }

  /** The outcome of a reservation is on the document. */
  ghost predicate Recorded(before: Orders, after: Orders, o: OrderId, reservation: Reservation) {
    && Settles(before, after, o, if reservation.ReservedAt? then STOCK_RESERVED else FAILED)
    && if reservation.ReservedAt? then after[o].warehouseId == Some(reservation.warehouse)
       else after[o].failureCode == Some(OUT_OF_STOCK)
  }

  lemma ServedBy(before: Orders, inventory: Inventory, after: Orders, o: OrderId, reservation: Reservation)
    requires o in before && Recorded(before, after, o, reservation)
    requires o in inventory.reserves ==>
               reservation.ReservedAt? && reservation.warehouse == inventory.reserves[o].warehouse
    requires o !in inventory.reserves ==>
               if reservation.NoWarehouse? then NoFit(inventory.stock, before[o].nearest, before[o].items)
               else NearestFit(inventory.stock, before[o].nearest, before[o].items, reservation.warehouse)
    ensures Served(before, inventory, after, o)
  {
  }

  /** Whether the order is paid for if operation `asked` looks its customer up and the second after it charges. */
  predicate PaysWhenAsked(charges: map<OrderId, Charge>, o: OrderId, choices: nat -> Choice, asked: nat) {
    Pays(Lookup(charges, o), choices(asked).customerFound, choices(asked + 2).declined)
  }

  /**
   * An undisturbed delivery on its way: only its order has moved, and where it
   * will end has not changed. `asked` is the operation that looked the customer up.
   */
  ghost predicate OnCourse(first: World, now: World, o: OrderId, choices: nat -> Choice, asked: Option<nat>) {
    && o in first.orders && o in now.orders && Settles(first.orders, now.orders, o, now.orders[o].status)
    && var was, status, served := first.orders[o].status, now.orders[o].status,
         Servable(first.inventory, o, first.orders[o]);
    && (status == PENDING ==> now.orders == first.orders && now.inventory == first.inventory)
    && if asked == None then
         && now.charges == first.charges
         && Ending(status, served, true) == Ending(was, served, true)
         && Ending(status, served, false) == Ending(was, served, false)
       else
         && status != PENDING && status != STOCK_RESERVED
         && Ending(status, served, true)
             == Ending(was, served, PaysWhenAsked(first.charges, o, choices, asked.value))
  }

  lemma CourseStarts(first: World, o: OrderId, choices: nat -> Choice)
    requires o in first.orders
    ensures OnCourse(first, first, o, choices, None)
  {
  }

  /** A pass of the loop stays on course. */
  lemma CourseGoesOn(first: World, before: World, after: World, o: OrderId, choices: nat -> Choice,
                     asked: Option<nat>, tick: nat)
    requires OnCourse(first, before, o, choices, asked) && !IsTerminal(before.orders[o].status)
    requires var doc := before.orders[o];
             && Settles(before.orders, after.orders, o,
                        NextStatus(doc.status, Servable(before.inventory, o, doc),
                                   PaysWhenAsked(before.charges, o, choices, tick)))
             && (doc.status != STOCK_RESERVED ==> after.charges == before.charges)
    ensures OnCourse(first, after, o, choices,
                     if before.orders[o].status == STOCK_RESERVED then Some(tick) else asked)
  {
    ThenSettles(first.orders, before.orders, after.orders, o, after.orders[o].status);
  }

  /** Reads and releases stay on course. */
  lemma CourseStays(first: World, before: World, after: World, o: OrderId, choices: nat -> Choice, asked: Option<nat>)
    requires OnCourse(first, before, o, choices, asked)
    requires after.orders == before.orders && after.charges == before.charges
    requires after.inventory == before.inventory || IsTerminal(before.orders[o].status)
    ensures OnCourse(first, after, o, choices, asked)
  {
  }

  /** Where the undisturbed delivery ended. */
  lemma CourseEnds(first: World, now: World, o: OrderId, choices: nat -> Choice, asked: Option<nat>, any: nat)
    requires OnCourse(first, now, o, choices, asked) && IsTerminal(now.orders[o].status)
    ensures Ended(first, now.orders, o, choices, if asked.Some? then asked.value else any)
  {
  }

  /** The order is where stock, customer and provider send it, and no other order has moved. */
  ghost predicate Ended(first: World, after: Orders, o: OrderId, choices: nat -> Choice, asked: nat)
    requires o in first.orders
  {
    Settles(first.orders, after, o,
            Ending(first.orders[o].status, Servable(first.inventory, o, first.orders[o]),
                   PaysWhenAsked(first.charges, o, choices, asked)))
  }

  class OrderSagaProcessor {
    const b: Backend

    constructor (backend: Backend)
      ensures b == backend
    {
      b := backend;
    }

    /**
     * One attempt at the nearest candidate left; None sends the loop to the next
     * one. `at` is the moment of the transaction.
     */
    method TryReserveAt(a: ActorId, ghost o: OrderId, ghost items: seq<Item>, candidates: seq<WarehouseId>)
      returns (r: Outcome<Option<Reservation>>, ghost at: History)
      requires b.Valid() && a in b.actors && b.actors[a] == Actor(o, Trying(items, candidates)) && candidates != []
      modifies b.Footprint()
      ensures b.Valid() && Onward(old(b.history), b.history, a)
      ensures r.Threw? ==> Stands(b.actors, a, o, Some(Redelivery))
      ensures r.Returned? ==> Moment(old(b.history), at, b.history, a, Actor(o, Trying(items, candidates)))
      ensures r.Returned? && r.value == None ==>
                && Stands(b.actors, a, o, Some(Trying(items, candidates[1..])))
                && DebitAll(StockAt(at), candidates[0], items) == None
      ensures r.Returned? && r.value.Some? ==>
                && r.value.value.ReservedAt? && Stands(b.actors, a, o, Some(ReserveCas(r.value.value.warehouse)))
                && (!r.value.value.replayed ==>
                      r.value.value.warehouse == candidates[0] && DebitAll(StockAt(at), candidates[0], items).Some?)
      ensures b.Calm() ==> r.Returned? && StockAt(at) == old(b.inventory.stock)
      ensures b.Calm() ==> Kept(b, old(b.orders.rows), old(b.charges.rows))
      ensures b.Calm() && r.value == None ==> b.inventory.Contents() == old(b.inventory.Contents())
      ensures b.Calm() && o !in old(b.inventory.reserves) && r.value.Some? ==> !r.value.value.replayed
    {
      at := b.history;
      var attempt :- TryNearest(b, a);
      at := b.history.before;
      OnwardIsWithin(old(b.history), at, a);
      match attempt {
        case Reserved => return Returned(Some(ReservedAt(candidates[0], false))), at;
        case InsufficientStock => return Returned(None), at;
        case DuplicateKey =>
          r := FollowWinner(a, o, old(b.history), at, Actor(o, Trying(items, candidates)));
      }
    }

    /** The order was reserved in the meantime: take the warehouse that won. `at` stays a moment of the history. */
    method FollowWinner(a: ActorId, ghost o: OrderId, ghost from: History, ghost at: History, ghost actor: Actor)
      returns (r: Outcome<Option<Reservation>>)
      requires b.Valid() && Stands(b.actors, a, o, Some(WinnerLookup))
      requires Moment(from, at, b.history, a, actor) && Onward(from, b.history, a)
      modifies b.Footprint()
      ensures b.Valid() && Moment(from, at, b.history, a, actor) && Onward(from, b.history, a)
      ensures r.Threw? ==> Stands(b.actors, a, o, Some(Redelivery))
      ensures r.Returned? ==>
                && r.value.Some? && r.value.value.ReservedAt? && r.value.value.replayed
                && Stands(b.actors, a, o, Some(ReserveCas(r.value.value.warehouse)))
      ensures b.Calm() ==> r.Returned? && Kept(b, old(b.orders.rows), old(b.charges.rows))
    {
      ghost var mid := b.history;
      var won := FindWinningReserve(b, a);
      MomentStays(from, at, mid, b.history, a, actor);
      r := if won.Threw? then Threw else Returned(Some(ReservedAt(won.value, true)));
    }

    /** One more pass of the loop over candidates, on top of the attempts made so far; `now` has one more. */
    method TryNext(a: ActorId, ghost o: OrderId, ghost items: seq<Item>, candidates: seq<WarehouseId>, i: nat,
                   ghost from: History, ghost tried: seq<History>)
      returns (r: Outcome<Option<Reservation>>, ghost now: seq<History>)
      requires b.Valid() && i == |tried| < |candidates| && Stands(b.actors, a, o, Some(Trying(items, candidates[i..])))
      requires LoopState(from, tried, a, o, items, candidates)
      modifies b.Footprint()
      ensures b.Valid() && Onward(from, b.history, a)
      ensures r.Threw? ==> Stands(b.actors, a, o, Some(Redelivery))
      ensures r.Returned? && r.value == None ==>
                && |now| == i + 1 && LoopState(from, now, a, o, items, candidates)
                && Stands(b.actors, a, o, Some(Trying(items, candidates[i + 1..])))
      ensures r.Returned? && r.value.Some? ==>
                && r.value.value.ReservedAt? && Stands(b.actors, a, o, Some(ReserveCas(r.value.value.warehouse)))
                && AttemptedAt(from, now, b.history, a, o, items, candidates)
                && Tried(r.value.value, candidates, items, now)
      ensures b.Calm() ==>
                r.Returned? && (AllSaw(tried, old(b.inventory.stock)) ==> AllSaw(now, old(b.inventory.stock)))
      ensures b.Calm() ==> Kept(b, old(b.orders.rows), old(b.charges.rows))
      ensures b.Calm() && r.value == None ==> b.inventory.Contents() == old(b.inventory.Contents())
      ensures b.Calm() && o !in old(b.inventory.reserves) && r.value.Some? ==> !r.value.value.replayed
    {
      ghost var mid, stock := b.history, b.inventory.stock;
      ghost var at;
      r, at := TryReserveAt(a, o, items, candidates[i..]);
      OnwardOn(from, mid, b.history, a);
      now := tried + [at];
      if r.Returned? {
        AnotherAttempt(from, tried, mid, at, b.history, a, o, items, candidates);
        assert candidates[i..][1..] == candidates[i + 1..];
        if r.value.Some? {
          LastAttempt(r.value.value, candidates, items, tried, at);
        } else {
          ShortAttempt(candidates, items, tried, at);
        }
        if StockAt(at) == stock && AllSaw(tried, stock) {
          OneMoreSaw(tried, at, stock);
        }
      }
    }

    /** The loop over candidates so far: every attempt is in the history, and found its candidate short. */
    ghost predicate LoopState(from: History, tried: seq<History>, a: ActorId, o: OrderId,
                              items: seq<Item>, candidates: seq<WarehouseId>)
      reads b
    {
      && Onward(from, b.history, a) && AttemptedAt(from, tried, b.history, a, o, items, candidates)
      && AllShort(candidates, items, tried)
      && Within(if tried == [] then from else tried[|tried| - 1], b.history)
    }

    /** The loop over candidates, nearest first; None when all were short. `tried` are the moments of the attempts. */
    method TryAll(a: ActorId, ghost o: OrderId, candidates: seq<WarehouseId>, ghost items: seq<Item>)
      returns (r: Outcome<Option<Reservation>>, ghost tried: seq<History>)
      requires b.Valid() && a in b.actors && b.actors[a] == Actor(o, Trying(items, candidates))
      modifies b.Footprint()
      ensures b.Valid() && Onward(old(b.history), b.history, a)
      ensures r.Threw? ==> Stands(b.actors, a, o, Some(Redelivery))
      ensures r.Returned? ==> AttemptedAt(old(b.history), tried, b.history, a, o, items, candidates)
      ensures r.Returned? ==>
                if r.value.Some? then
                  && Tried(r.value.value, candidates, items, tried) && r.value.value.ReservedAt?
                  && Stands(b.actors, a, o, Some(ReserveCas(r.value.value.warehouse)))
                else
                  Tried(NoWarehouse, candidates, items, tried) && Stands(b.actors, a, o, Some(Trying(items, [])))
      ensures b.Calm() ==> r.Returned? && AllSaw(tried, old(b.inventory.stock))
      ensures b.Calm() ==> Kept(b, old(b.orders.rows), old(b.charges.rows))
      ensures b.Calm() && o !in old(b.inventory.reserves) && r.value.Some? ==> !r.value.value.replayed
    {
      ghost var from, contents := b.history, b.inventory.Contents();
      tried := [];
      var i := 0;
      while i < |candidates|
        invariant 0 <= i <= |candidates| && |tried| == i
        invariant b.Valid() && LoopState(from, tried, a, o, items, candidates)
        invariant Stands(b.actors, a, o, Some(Trying(items, candidates[i..])))
        invariant b.Calm() ==> b.inventory.Contents() == contents && AllSaw(tried, contents.stock)
        invariant b.Calm() ==> Kept(b, old(b.orders.rows), old(b.charges.rows))
      {
        r, tried := TryNext(a, o, items, candidates, i, from, tried);
        if r.Threw? || r.value.Some? {
          return;
        }
        i := i + 1;
      }
      assert candidates[i..] == [];
      r := Returned(None);
    }

    /** Tries the candidates in turn and gives up when all were short. */
    method TryCandidates(a: ActorId, ghost o: OrderId, candidates: seq<WarehouseId>, ghost items: seq<Item>)
      returns (r: Outcome<Reservation>, ghost tried: seq<History>)
      requires b.Valid() && a in b.actors && b.actors[a] == Actor(o, Trying(items, candidates))
      modifies b.Footprint()
      ensures b.Valid() && Onward(old(b.history), b.history, a)
      ensures r.Threw? ==> Stands(b.actors, a, o, Some(Redelivery))
      ensures r.Returned? ==>
                Stands(b.actors, a, o,
                       Some(if r.value.ReservedAt? then ReserveCas(r.value.warehouse) else OutOfStockCas))
      ensures r.Returned? ==>
                && AttemptedAt(old(b.history), tried, b.history, a, o, items, candidates)
                && Tried(r.value, candidates, items, tried)
      ensures b.Calm() ==> r.Returned? && AllSaw(tried, old(b.inventory.stock))
      ensures b.Calm() ==> Kept(b, old(b.orders.rows), old(b.charges.rows))
      ensures b.Calm() && o !in old(b.inventory.reserves) ==> r.value.NoWarehouse? || !r.value.replayed
    {
      var outcome;
      outcome, tried := TryAll(a, o, candidates, items);
      if outcome.Threw? {
        return Threw, tried;
      }
      if outcome.value.Some? {
        return Returned(outcome.value.value), tried;
      }
      NoneLeft(a, o, items, candidates, old(b.history), tried);
      return Returned(NoWarehouse), tried;
    }

    /** Every candidate was short. */
    method NoneLeft(a: ActorId, ghost o: OrderId, ghost items: seq<Item>, ghost candidates: seq<WarehouseId>,
                    ghost from: History, ghost tried: seq<History>)
      requires b.Valid() && Stands(b.actors, a, o, Some(Trying(items, [])))
      requires AttemptedAt(from, tried, b.history, a, o, items, candidates) && Onward(from, b.history, a)
      modifies b.Footprint()
      ensures b.Valid() && Onward(from, b.history, a) && Stands(b.actors, a, o, Some(OutOfStockCas))
      ensures AttemptedAt(from, tried, b.history, a, o, items, candidates)
      ensures Kept(b, old(b.orders.rows), old(b.charges.rows))
    {
      ghost var mid := b.history;
      GiveUpOnCandidates(b, a);
      OnwardOn(from, mid, b.history, a);
      AttemptsStay(from, tried, mid, b.history, a, o, items, candidates);
    }

    /**
     * Reserves at the nearest warehouse that can serve the whole order. `ranking`
     * is the moment of the ranking query, `tried` are those of the attempts.
     *
     * Whatever the interference, the chosen warehouse sufficed when its attempt
     * committed, and every nearer one was short when the ranking looked or when
     * its own attempt ran. Undisturbed, an order already reserved gets its original
     * warehouse back; any other gets the nearest warehouse that fits, or none if none does.
     */
    method ReserveForOrder(a: ActorId, ghost o: OrderId, ranked: seq<WarehouseId>, items: seq<Item>)
      returns (r: Outcome<Reservation>, ghost ranking: History, ghost tried: seq<History>)
      requires b.Valid() && a in b.actors && b.actors[a] == Actor(o, PriorLookup(items)) && Ranks(b, o, ranked)
      modifies b.Footprint()
      ensures b.Valid() && Onward(old(b.history), b.history, a)
      ensures r.Threw? ==> Stands(b.actors, a, o, Some(Redelivery))
      ensures r.Returned? ==>
                Stands(b.actors, a, o,
                       Some(if r.value.ReservedAt? then ReserveCas(r.value.warehouse) else OutOfStockCas))
      ensures r.Returned? && !(r.value.ReservedAt? && r.value.replayed) ==>
                && Moment(old(b.history), ranking, b.history, a, Actor(o, Ranking(items)))
                && AttemptedAt(ranking, tried, b.history, a, o, items, Candidates(StockAt(ranking), ranked, items))
                && if r.value.ReservedAt? then NearestInTime(r.value.warehouse, ranked, items, ranking, tried)
                   else forall j :: 0 <= j < |ranked| ==> WasShort(ranked[j], ranked, items, ranking, tried)
      ensures b.Calm() ==> r.Returned? && Kept(b, old(b.orders.rows), old(b.charges.rows))
      ensures b.Calm() && o in old(b.inventory.reserves) ==>
                && r.value == ReservedAt(old(b.inventory.reserves)[o].warehouse, true)
                && b.inventory.Contents() == old(b.inventory.Contents())
      ensures b.Calm() && o !in old(b.inventory.reserves) ==>
                if r.value.NoWarehouse? then NoFit(old(b.inventory.stock), ranked, items)
                else !r.value.replayed && NearestFit(old(b.inventory.stock), ranked, items, r.value.warehouse)
    {
      ranking, tried := b.history, [];
      var prior :- FindPriorReserve(b, a);
      if prior.Some? {
        return Returned(ReservedAt(prior.value.warehouse, true)), ranking, tried;
      }
      ghost var mid := b.history;
      StillRanks(b, old(b.history), a, o, ranked);
      r, ranking, tried := RankAndTry(a, o, ranked, items);
      OnwardOn(old(b.history), mid, b.history, a);
      OnwardIsWithin(old(b.history), mid, a);
      if r.Returned? && !(r.value.ReservedAt? && r.value.replayed) {
        WithinOn(old(b.history), mid, ranking);
      }
    }

    /** Rank the warehouses, then try the candidates in turn. */
    method RankAndTry(a: ActorId, ghost o: OrderId, ranked: seq<WarehouseId>, items: seq<Item>)
      returns (r: Outcome<Reservation>, ghost ranking: History, ghost tried: seq<History>)
      requires b.Valid() && a in b.actors && b.actors[a] == Actor(o, Ranking(items)) && Ranks(b, o, ranked)
      modifies b.Footprint()
      ensures b.Valid() && Onward(old(b.history), b.history, a)
      ensures r.Threw? ==> Stands(b.actors, a, o, Some(Redelivery))
      ensures r.Returned? ==>
                Stands(b.actors, a, o,
                       Some(if r.value.ReservedAt? then ReserveCas(r.value.warehouse) else OutOfStockCas))
      ensures r.Returned? && !(r.value.ReservedAt? && r.value.replayed) ==>
                && Moment(old(b.history), ranking, b.history, a, Actor(o, Ranking(items)))
                && AttemptedAt(ranking, tried, b.history, a, o, items, Candidates(StockAt(ranking), ranked, items))
                && if r.value.ReservedAt? then NearestInTime(r.value.warehouse, ranked, items, ranking, tried)
                   else forall j :: 0 <= j < |ranked| ==> WasShort(ranked[j], ranked, items, ranking, tried)
      ensures b.Calm() ==> r.Returned? && Kept(b, old(b.orders.rows), old(b.charges.rows))
      ensures b.Calm() && o !in old(b.inventory.reserves) ==>
                if r.value.NoWarehouse? then NoFit(old(b.inventory.stock), ranked, items)
                else !r.value.replayed && NearestFit(old(b.inventory.stock), ranked, items, r.value.warehouse)
    {
      ranking, tried := b.history, [];
      var candidates :- RankWarehouses(b, a, ranked);
      ranking := b.history.before;
      ghost var mid := b.history;
      r, tried := TryCandidates(a, o, candidates, items);
      OnwardOn(old(b.history), mid, b.history, a);
      OnwardIsWithin(old(b.history), ranking, a);
      OnwardIsWithin(mid, b.history, a);
      ActedStays(ranking, mid, b.history, a);
      if r.Returned? {
        AttemptsAfter(ranking, mid, tried, b.history, a, o, items, candidates);
        NearerWereShort(ranked, items, r.value, ranking, tried);
      }
      if b.Calm() {
        TriedFindsNearest(StockAt(ranking), ranked, items, r.value, tried);
      }
    }

    /** PENDING: reserve, then record it; or fail the order when nobody can serve it. */
    method Reserve(a: ActorId, ghost o: OrderId, order: Order) returns (r: Outcome<()>)
      requires b.Valid() && a in b.actors && b.actors[a] == Actor(o, PriorLookup(order.items))
      requires Ranks(b, o, order.nearest)
      modifies b.Footprint()
      ensures b.Valid() && Onward(old(b.history), b.history, a)
      ensures r.Threw? ==> Stands(b.actors, a, o, Some(Redelivery))
      ensures r.Returned? ==> Stands(b.actors, a, o, Some(Reading)) && Past(b, o, PENDING)
      ensures b.Calm() && old(Matches(b.orders.rows, o, PENDING)) ==>
                && r.Returned? && b.charges.rows == old(b.charges.rows)
                && Served(old(b.orders.rows), old(b.inventory.Contents()), b.orders.rows, o)
    {
      b.ValidImpliesInv();
      Known(b.Snapshot(), a);
      ghost var before, inventory := b.orders.rows, b.inventory.Contents();
      ghost var ranking, tried;
      var reservation;
      reservation, ranking, tried := ReserveForOrder(a, o, order.nearest, order.items);
      if reservation.Threw? {
        return Threw;
      }
      ghost var mid := b.history;
      r := RecordReservation(a, o, reservation.value);
      OnwardOn(old(b.history), mid, b.history, a);
      if b.Calm() && Matches(before, o, PENDING) {
        ServedBy(before, inventory, b.orders.rows, o, reservation.value);
      }
    }

    method RecordReservation(a: ActorId, ghost o: OrderId, reservation: Reservation) returns (r: Outcome<()>)
      requires b.Valid() && a in b.actors
      requires b.actors[a] == Actor(o, if reservation.ReservedAt? then ReserveCas(reservation.warehouse)
                                    else OutOfStockCas)
      modifies b.Footprint()
      ensures b.Valid() && Onward(old(b.history), b.history, a)
      ensures r.Threw? ==> Stands(b.actors, a, o, Some(Redelivery))
      ensures r.Returned? ==> Stands(b.actors, a, o, Some(Reading)) && Past(b, o, PENDING)
      ensures b.Calm() && old(Matches(b.orders.rows, o, PENDING)) ==>
                && r.Returned? && b.charges.rows == old(b.charges.rows)
                && Recorded(old(b.orders.rows), b.orders.rows, o, reservation)
    {
      var won;
      if reservation.ReservedAt? {
        won :- TransitionOrder(b, a, o, ReserveCas(reservation.warehouse), PENDING, STOCK_RESERVED,
                               TransitionPatch(Some(reservation.warehouse), None, None));
      } else {
        won :- TransitionOrder(b, a, o, OutOfStockCas, PENDING, FAILED,
                               TransitionPatch(None, None, Some(OUT_OF_STOCK)));
      }
      return Returned(());
    }

    /** One authorization at the provider: the prior charge under the key, or what the insert of a new one leads to. */
    method AuthorizePayment(a: ActorId, ghost o: OrderId, ghost amount: nat)
      returns (r: Outcome<PaymentResult>)
      requires b.Valid() && a in b.actors && b.actors[a] == Actor(o, PspFind(amount))
      modifies b.Footprint()
      ensures b.Valid() && Onward(old(b.history), b.history, a)
      ensures r.Threw? ==> Stands(b.actors, a, o, Some(Redelivery))
      ensures r.Returned? ==> ChargedAs(b, o, r.value) && Stands(b.actors, a, o, Some(PaymentCas(r.value)))
      ensures b.Calm() ==>
                && r.Returned? && b.orders.rows == old(b.orders.rows)
                && b.inventory.Contents() == old(b.inventory.Contents())
                && (r.value.success
                    <==> Pays(Lookup(old(b.charges.rows), o), true, b.choices(old(b.ticks) + 2).declined))
    {
      var prior :- FindPriorCharge(b, a);
      if prior.Some? {
        return Returned(prior.value);
      }
      ghost var mid := b.history;
      r := ChargeAnew(a, o, amount);
      OnwardOn(old(b.history), mid, b.history, a);
    }

    /** A new charge, or the one that won the race for the key. */
    method ChargeAnew(a: ActorId, ghost o: OrderId, ghost amount: nat) returns (r: Outcome<PaymentResult>)
      requires b.Valid() && a in b.actors && b.actors[a] == Actor(o, PspInsert(amount))
      modifies b.Footprint()
      ensures b.Valid() && Onward(old(b.history), b.history, a)
      ensures r.Threw? ==> Stands(b.actors, a, o, Some(Redelivery))
      ensures r.Returned? ==> ChargedAs(b, o, r.value) && Stands(b.actors, a, o, Some(PaymentCas(r.value)))
      ensures b.Calm() ==>
                && r.Returned? && b.orders.rows == old(b.orders.rows)
                && b.inventory.Contents() == old(b.inventory.Contents())
      ensures b.Calm() && o !in old(b.charges.rows) ==> (r.value.success <==> !b.choices(old(b.ticks) + 1).declined)
    {
      var inserted :- InsertCharge(b, a);
      if inserted.Some? {
        return Returned(inserted.value);
      }
      ghost var mid := b.history;
      r := FindWinningCharge(b, a);
      OnwardOn(old(b.history), mid, b.history, a);
    }

    /** Records how the payment went. */
    method RecordPayment(a: ActorId, ghost o: OrderId, result: PaymentResult) returns (r: Outcome<()>)
      requires b.Valid() && a in b.actors && b.actors[a] == Actor(o, PaymentCas(result))
      modifies b.Footprint()
      ensures b.Valid() && Onward(old(b.history), b.history, a)
      ensures r.Threw? ==> Stands(b.actors, a, o, Some(Redelivery))
      ensures r.Returned? ==> Stands(b.actors, a, o, Some(Reading)) && Past(b, o, STOCK_RESERVED)
      ensures b.Calm() && old(Matches(b.orders.rows, o, STOCK_RESERVED)) ==>
                && r.Returned?
                && Settles(old(b.orders.rows), b.orders.rows, o,
                           AfterPayment(result.success))
    {
      var won;
      if result.success {
        won :- TransitionOrder(b, a, o, PaymentCas(result), STOCK_RESERVED, PAYMENT_AUTHORIZED,
                               TransitionPatch(None, Some(result), None));
      } else {
        won :- TransitionOrder(b, a, o, PaymentCas(result), STOCK_RESERVED, COMPENSATING,
                               TransitionPatch(None, Some(result), Some(PAYMENT_DECLINED)));
      }
      return Returned(());
    }

    /** STOCK_RESERVED: charge the customer and record how it went. */
    method Authorize(a: ActorId, ghost o: OrderId, order: Order) returns (r: Outcome<()>)
      requires b.Valid() && a in b.actors && b.actors[a] == Actor(o, CustomerLookup(order.totalAmount))
      modifies b.Footprint()
      ensures b.Valid() && Onward(old(b.history), b.history, a)
      ensures r.Threw? ==> Stands(b.actors, a, o, Some(Redelivery))
      ensures r.Returned? ==> Stands(b.actors, a, o, Some(Reading)) && Past(b, o, STOCK_RESERVED)
      ensures b.Calm() && old(Matches(b.orders.rows, o, STOCK_RESERVED)) ==>
                && r.Returned?
                && Settles(old(b.orders.rows), b.orders.rows, o,
                           AfterPayment(PaysWhenAsked(old(b.charges.rows), o, b.choices, old(b.ticks) + 1)))
    {
      ghost var pays := PaysWhenAsked(b.charges.rows, o, b.choices, b.ticks + 1);
      var customer :- LookupCustomer(b, a);
      ghost var mid := b.history;
      assert b.Calm() ==>
          (pays <==> customer && Pays(Lookup(b.charges.rows, o), true, b.choices(b.ticks + 2).declined));
      if customer {
        r := ChargeCustomer(a, o, order.totalAmount);
      } else {
        r := UnwindWithoutCustomer(a, o);
      }
      OnwardOn(old(b.history), mid, b.history, a);
    }

    method UnwindWithoutCustomer(a: ActorId, ghost o: OrderId) returns (r: Outcome<()>)
      requires b.Valid() && a in b.actors && b.actors[a] == Actor(o, NoCustomerCas)
      modifies b.Footprint()
      ensures b.Valid() && Onward(old(b.history), b.history, a)
      ensures r.Threw? ==> Stands(b.actors, a, o, Some(Redelivery))
      ensures r.Returned? ==> Stands(b.actors, a, o, Some(Reading)) && Past(b, o, STOCK_RESERVED)
      ensures b.Calm() && old(Matches(b.orders.rows, o, STOCK_RESERVED)) ==>
                r.Returned? && Settles(old(b.orders.rows), b.orders.rows, o, COMPENSATING)
    {
      var won :- TransitionOrder(b, a, o, NoCustomerCas, STOCK_RESERVED, COMPENSATING,
                                 TransitionPatch(None, None, Some(PAYMENT_DECLINED)));
      return Returned(());
    }

    method ChargeCustomer(a: ActorId, ghost o: OrderId, ghost amount: nat) returns (r: Outcome<()>)
      requires b.Valid() && a in b.actors && b.actors[a] == Actor(o, PspFind(amount))
      modifies b.Footprint()
      ensures b.Valid() && Onward(old(b.history), b.history, a)
      ensures r.Threw? ==> Stands(b.actors, a, o, Some(Redelivery))
      ensures r.Returned? ==> Stands(b.actors, a, o, Some(Reading)) && Past(b, o, STOCK_RESERVED)
      ensures b.Calm() && old(Matches(b.orders.rows, o, STOCK_RESERVED)) ==>
                && r.Returned?
                && Settles(old(b.orders.rows), b.orders.rows, o,
                           AfterPayment(Pays(Lookup(old(b.charges.rows), o), true,
                                             b.choices(old(b.ticks) + 2).declined)))
    {
      var result :- AuthorizePayment(a, o, amount);
      ghost var mid := b.history;
      r := RecordPayment(a, o, result);
      OnwardOn(old(b.history), mid, b.history, a);
    }

    /** PAYMENT_AUTHORIZED: nothing is left but to say so. */
    method Complete(a: ActorId, ghost o: OrderId) returns (r: Outcome<()>)
      requires b.Valid() && a in b.actors && b.actors[a] == Actor(o, CompleteCas)
      modifies b.Footprint()
      ensures b.Valid() && Onward(old(b.history), b.history, a)
      ensures r.Threw? ==> Stands(b.actors, a, o, Some(Redelivery))
      ensures r.Returned? ==> Stands(b.actors, a, o, Some(Reading)) && Past(b, o, PAYMENT_AUTHORIZED)
      ensures b.Calm() && old(Matches(b.orders.rows, o, PAYMENT_AUTHORIZED)) ==>
                && r.Returned? && b.charges.rows == old(b.charges.rows)
                && Settles(old(b.orders.rows), b.orders.rows, o, COMPLETED)
    {
      var won :- TransitionOrder(b, a, o, CompleteCas, PAYMENT_AUTHORIZED, COMPLETED, NO_PATCH);
      return Returned(());
    }

    /** COMPENSATING: give the stock back, then say so, and return. */
    method Compensate(a: ActorId, ghost o: OrderId) returns (r: Outcome<()>)
      requires b.Valid() && a in b.actors && b.actors[a] == Actor(o, CompensationRelease)
      modifies b.Footprint()
      ensures b.Valid() && Onward(old(b.history), b.history, a)
      ensures r.Threw? ==> Stands(b.actors, a, o, Some(Redelivery))
      ensures r.Returned? ==> a !in b.actors && Past(b, o, COMPENSATING)
      ensures b.Calm() && old(Matches(b.orders.rows, o, COMPENSATING)) ==>
                && r.Returned? && b.charges.rows == old(b.charges.rows)
                && Settles(old(b.orders.rows), b.orders.rows, o, COMPENSATED)
    {
      var released :- ReleaseStock(b, a, o, CompensationRelease);
      ghost var mid := b.history;
      r := SettleCompensation(a, o);
      OnwardOn(old(b.history), mid, b.history, a);
    }

    method SettleCompensation(a: ActorId, ghost o: OrderId) returns (r: Outcome<()>)
      requires b.Valid() && a in b.actors && b.actors[a] == Actor(o, CompensatedCas)
      modifies b.Footprint()
      ensures b.Valid() && Onward(old(b.history), b.history, a)
      ensures r.Threw? ==> Stands(b.actors, a, o, Some(Redelivery))
      ensures r.Returned? ==> a !in b.actors && Past(b, o, COMPENSATING)
      ensures b.Calm() && old(Matches(b.orders.rows, o, COMPENSATING)) ==>
                && r.Returned? && b.charges.rows == old(b.charges.rows)
                && Settles(old(b.orders.rows), b.orders.rows, o, COMPENSATED)
    {
      var won :- TransitionOrder(b, a, o, CompensatedCas, COMPENSATING, COMPENSATED, NO_PATCH);
      return Returned(());
    }

    /** The read at the head of the loop: others can only have moved the order further along. */
    method ReadAgain(a: ActorId, ghost o: OrderId, ghost rank: nat) returns (r: Outcome<Option<Order>>)
      requires b.Valid() && a in b.actors && b.actors[a] == Actor(o, Reading)
      requires rank > 0 ==> o in b.orders.rows && rank <= Rank(b.orders.rows[o].status)
      modifies b.Footprint()
      ensures b.Valid() && Onward(old(b.history), b.history, a)
      ensures r.Threw? ==> Stands(b.actors, a, o, Some(Redelivery))
      ensures r.Returned? ==> r.value == Lookup(b.orders.rows, o)
                              && Stands(b.actors, a, o, if r.value.Some? then AfterRead(r.value.value) else None)
      ensures r.Returned? && rank > 0 ==> r.value.Some? && rank <= Rank(r.value.value.status)
      ensures b.Calm() ==>
                && r.Returned? && Kept(b, old(b.orders.rows), old(b.charges.rows))
                && b.inventory.Contents() == old(b.inventory.Contents())
    {
      ghost var before := b.orders.rows;
      r := ReadOrder(b, a);
      OnwardIsWithin(old(b.history), b.history, a);
      b.Since(old(b.history));
      if o in before {
        RankClimbs(before[o].status, b.orders.rows[o].status);
      }
    }

    /** A terminal order was read: FAILED may still hold stock, the other two must not be touched. */
    method Finish(a: ActorId, ghost o: OrderId, order: Order) returns (r: Outcome<()>)
      requires b.Valid() && IsTerminal(order.status) && Stands(b.actors, a, o, AfterRead(order))
      requires o in b.orders.rows && b.orders.rows[o].status == order.status
      modifies b.Footprint()
      ensures b.Valid()
      ensures if order.status == FAILED then Onward(old(b.history), b.history, a) else b.history == old(b.history)
      ensures r.Threw? ==> Stands(b.actors, a, o, Some(Redelivery))
      ensures r.Returned? ==> a !in b.actors && o in b.orders.rows && b.orders.rows[o].status == order.status
      ensures r.Returned? && order.status == FAILED && o in b.inventory.reserves ==> o in b.inventory.releases
      ensures b.Calm() ==> r.Returned? && Kept(b, old(b.orders.rows), old(b.charges.rows))
    {
      ghost var before := b.orders.rows;
      if order.status == FAILED {
        var released :- ReleaseStock(b, a, o, FailedRelease);
        OnwardIsWithin(old(b.history), b.history, a);
        b.Since(old(b.history));
        assert Reaches(before[o].status, b.orders.rows[o].status);
      }
      return Returned(());
    }

    /** One pass of the loop on a live order; false means the delivery is done with it. */
    method Handle(a: ActorId, ghost o: OrderId, order: Order) returns (r: Outcome<bool>)
      requires b.Valid() && a in b.actors && !IsTerminal(order.status)
      requires b.actors[a] == Actor(o, AfterRead(order).value) && Lookup(b.orders.rows, o) == Some(order)
      modifies b.Footprint()
      ensures b.Valid() && Onward(old(b.history), b.history, a)
      ensures r.Threw? ==> Stands(b.actors, a, o, Some(Redelivery))
      ensures r.Returned? ==>
                Past(b, o, order.status) && Stands(b.actors, a, o, if r.value then Some(Reading) else None)
      ensures r.Returned? && !r.value ==> order.status == COMPENSATING
      ensures b.Calm() ==> r.Returned? && (r.value <==> order.status != COMPENSATING)
      ensures b.Calm() ==>
                && Settles(old(b.orders.rows), b.orders.rows, o,
                           NextStatus(order.status, Servable(old(b.inventory.Contents()), o, order),
                                      PaysWhenAsked(old(b.charges.rows), o, b.choices, old(b.ticks) + 1)))
                && (order.status != STOCK_RESERVED ==> b.charges.rows == old(b.charges.rows))
    {
      match order.status {
        case PENDING =>
          var done :- Reserve(a, o, order);
        case STOCK_RESERVED =>
          var done :- Authorize(a, o, order);
        case PAYMENT_AUTHORIZED =>
          var done :- Complete(a, o);
        case COMPENSATING =>
          var done :- Compensate(a, o);
          return Returned(false);
      }
      return Returned(true);
    }

    /**
     * One turn of the loop: read the order, then finish with it (false) or handle
     * its status. `rank` bounds from below how far the order has come by now.
     */
    method Turn(a: ActorId, ghost o: OrderId, ghost rank: nat, ghost first: World, ghost asked: Option<nat>)
      returns (r: Outcome<bool>, ghost now: Option<nat>)
      requires b.Valid() && a in b.actors && b.actors[a] == Actor(o, Reading)
      requires rank > 0 ==> o in b.orders.rows && rank <= Rank(b.orders.rows[o].status)
      modifies b.Footprint()
      ensures b.Valid() && Onward(old(b.history), b.history, a)
      ensures r.Threw? ==> Stands(b.actors, a, o, Some(Redelivery))
      ensures r == Returned(true) ==>
                && Stands(b.actors, a, o, Some(Reading))
                && o in b.orders.rows && rank < Rank(b.orders.rows[o].status) <= 3
      ensures r == Returned(false) ==> a !in b.actors && Closed(o)
      ensures b.Calm() ==> r.Returned?
      ensures b.Calm() && OnCourse(first, old(b.Snapshot()), o, b.choices, asked) ==>
                OnCourse(first, b.Snapshot(), o, b.choices, now)
      ensures b.Calm() && o !in old(b.orders.rows) ==> r == Returned(false) && b.orders.rows == old(b.orders.rows)
    {
      ghost var before := b.Snapshot();
      now := asked;
      var found := ReadAgain(a, o, rank);
      if found.Threw? {
        return Threw, now;
      }
      if b.Calm() && OnCourse(first, before, o, b.choices, asked) {
        CourseStays(first, before, b.Snapshot(), o, b.choices, asked);
      }
      if found.value == None {
        return Returned(false), now;
      }
      r, now := ActOn(a, o, found.value.value, old(b.history), first, asked);
    }

    /** What a turn does about the document it has read. */
    method ActOn(a: ActorId, ghost o: OrderId, order: Order, ghost from: History, ghost first: World,
                 ghost asked: Option<nat>)
      returns (r: Outcome<bool>, ghost now: Option<nat>)
      requires b.Valid() && Lookup(b.orders.rows, o) == Some(order) && Stands(b.actors, a, o, AfterRead(order))
      requires Onward(from, b.history, a)
      modifies b.Footprint()
      ensures b.Valid() && Onward(from, b.history, a)
      ensures r.Threw? ==> Stands(b.actors, a, o, Some(Redelivery))
      ensures r == Returned(true) ==>
                && Stands(b.actors, a, o, Some(Reading))
                && o in b.orders.rows && Rank(order.status) < Rank(b.orders.rows[o].status) <= 3
      ensures r == Returned(false) ==> a !in b.actors && Closed(o)
      ensures b.Calm() ==> r.Returned?
      ensures b.Calm() && OnCourse(first, old(b.Snapshot()), o, b.choices, asked) ==>
                OnCourse(first, b.Snapshot(), o, b.choices, now)
    {
      ghost var before, read, tick := b.Snapshot(), b.history, b.ticks + 1;
      now := asked;
      if IsTerminal(order.status) {
        var finished := Finish(a, o, order);
        if order.status == FAILED {
          OnwardOn(from, read, b.history, a);
        }
        if b.Calm() && OnCourse(first, before, o, b.choices, asked) {
          CourseStays(first, before, b.Snapshot(), o, b.choices, asked);
        }
        return if finished.Threw? then Threw else Returned(false), now;
      }
      r := Handle(a, o, order);
      OnwardOn(from, read, b.history, a);
      if b.Calm() && OnCourse(first, before, o, b.choices, asked) {
        CourseGoesOn(first, before, b.Snapshot(), o, b.choices, asked, tick);
        now := if order.status == STOCK_RESERVED then Some(tick) else asked;
      }
    }

    /** The order, if there is one, is terminal, and holds nothing if it is FAILED. */
    ghost predicate Closed(o: OrderId)
      reads b.Footprint()
    {
      o in b.orders.rows ==>
        && IsTerminal(b.orders.rows[o].status)
        && (b.orders.rows[o].status == FAILED && o in b.inventory.reserves ==> o in b.inventory.releases)
    }

    /** The loop of a delivery. */
    method Loop(a: ActorId, ghost o: OrderId) returns (r: Outcome<()>, ghost asked: nat)
      requires b.Valid() && a in b.actors && b.actors[a] == Actor(o, Reading)
      modifies b.Footprint()
      ensures b.Valid() && Onward(old(b.history), b.history, a)
      ensures r.Threw? ==> Stands(b.actors, a, o, Some(Redelivery))
      ensures r.Returned? ==> a !in b.actors && Closed(o)
      ensures b.Calm() ==>
                && r.Returned?
                && if o in old(b.orders.rows) then Ended(old(b.Snapshot()), b.orders.rows, o, b.choices, asked)
                   else b.orders.rows == old(b.orders.rows)
    {
      ghost var first, from, rank, course: Option<nat> := b.Snapshot(), b.history, 0, None;
      asked := 0;
      if o in first.orders {
        CourseStarts(first, o, b.choices);
      }
      while true
        invariant b.Valid() && a in b.actors && b.actors[a] == Actor(o, Reading) && Onward(from, b.history, a)
        invariant rank <= 3 && (rank > 0 ==> o in b.orders.rows && rank <= Rank(b.orders.rows[o].status))
        invariant b.Calm() && o in first.orders ==> OnCourse(first, b.Snapshot(), o, b.choices, course)
        invariant b.Calm() && o !in first.orders ==> b.orders.rows == first.orders
        decreases 4 - rank
      {
        ghost var mid := b.history;
        var more;
        more, course := Turn(a, o, rank, first, course);
        OnwardOn(from, mid, b.history, a);
        if more.Threw? {
          return Threw, asked;
        }
        if !more.value {
          if b.Calm() && o in first.orders {
            CourseEnds(first, b.Snapshot(), o, b.choices, course, asked);
            asked := if course.Some? then course.value else asked;
          }
          return Returned(()), asked;
        }
        rank := rank + 1;
      }
    }

    /**
     * One delivery of an order's job. Whatever others do meanwhile, it reads the
     * order at most four times and attempts at most three transitions. It gives up
     * for lack of stock only when every warehouse of the order was short in time,
     * and otherwise records the nearest that was not. It returns normally only once
     * its order is terminal (or has never existed), a FAILED one holding nothing;
     * otherwise the job is back with the queue. All it does is added to the history.
     *
     * Undisturbed it takes the order to its end: FAILED exactly if no warehouse can
     * serve it; else COMPLETED exactly if the customer is found and pays. `asked` is
     * the operation that looked the customer up; the insert of a charge is the
     * second one after it.
     */
    method Process(a: ActorId, ghost o: OrderId) returns (r: Outcome<()>, ghost asked: nat)
      requires b.Valid() && a in b.actors && b.actors[a] == Actor(o, Reading)
      modifies b.Footprint()
      ensures b.Valid() && Onward(old(b.history), b.history, a)
      ensures WorldEvolves(old(b.Snapshot()), b.Snapshot())
      ensures Looks(old(b.history), b.history, a) <= 4 && Attempts(old(b.history), b.history, a) <= 3
      ensures ChoseRightly(old(b.history), b.history, a)
      ensures r.Threw? ==> Stands(b.actors, a, o, Some(Redelivery))
      ensures r.Returned? ==> a !in b.actors && (o in b.orders.rows ==> IsTerminal(b.orders.rows[o].status))
      ensures r.Returned? && o in b.orders.rows && b.orders.rows[o].status == FAILED && o in b.inventory.reserves ==>
                o in b.inventory.releases
      ensures b.Calm() ==>
                && r.Returned?
                && if o in old(b.orders.rows) then Ended(old(b.Snapshot()), b.orders.rows, o, b.choices, asked)
                   else b.orders.rows == old(b.orders.rows)
    {
      r, asked := Loop(a, o);
      OnwardIsWithin(old(b.history), b.history, a);
      b.Since(old(b.history));
      DeliveryIsShort(old(b.history), b.history, a);
      EveryDeliveryChoosesRightly(old(b.history), b.history, a);
    }
  }
}
