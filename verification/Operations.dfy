/**
 * The operations of workers and sweepers, one database or provider call each.
 * Every one first lets the others act and may then throw; when it returns, it
 * reports what the call saw and where its actor stands.
 */
module Operations {
  import opened Wrappers
  import opened OrderStatuses
  import opened StockLedger
  import opened Inventories
  import opened Charges
  import opened Orders
  import opened SagaProtocol
  import opened SagaInvariant
  import opened Histories
  import opened Backends

  /** For operations that leave nothing to chance. */
  const PLAIN := Choice(map[], true, false, 0)

  /** Only `o` changed, and it is in status `end` now. */
  ghost predicate Settles(before: Orders, after: Orders, o: OrderId, end: OrderStatus) {
    && after.Keys == before.Keys && o in after && after[o].status == end
    && forall p :: p in before && p != o ==> after[p] == before[p]
  }

  lemma CasSettles(rows: Orders, o: OrderId, from: OrderStatus, to: OrderStatus, patch: TransitionPatch, now: nat)
    requires Matches(rows, o, from)
    ensures Settles(rows, Transitioned(rows, o, from, to, patch, now), o, to)
  {
  }

  /** A change to one order followed by settling that order settles it. */
  lemma ThenSettles(before: Orders, mid: Orders, after: Orders, o: OrderId, end: OrderStatus)
    requires o in before && mid.Keys == before.Keys && forall p :: p in before && p != o ==> mid[p] == before[p]
    requires Settles(mid, after, o, end)
    ensures Settles(before, after, o, end)
  {
  }

  /** Order documents and charges are as they were. */
  ghost predicate Kept(b: Backend, rows: Orders, charges: map<OrderId, Charge>)
    reads b.orders, b.charges
  {
    b.orders.rows == rows && b.charges.rows == charges
  }

  /** The order has left this status for good. */
  ghost predicate Past(b: Backend, o: OrderId, status: OrderStatus)
    reads b.orders
  {
    && o in b.orders.rows
    && Reaches(status, b.orders.rows[o].status) && Rank(status) < Rank(b.orders.rows[o].status)
  }

  /** The result is about the stored charge: its transaction, its amount, its outcome, under the order's key. */
  ghost predicate ChargedAs(b: Backend, o: OrderId, result: PaymentResult)
    reads b.charges
  {
    o in b.charges.rows && Reports(result, o, b.charges.rows[o])
  }

  /** findById at the head of the loop. */
  method ReadOrder(b: Backend, a: ActorId) returns (r: Outcome<Option<Order>>)
    requires b.Valid() && a in b.actors && b.actors[a].pc == Reading
    modifies b.Footprint()
    ensures b.Valid() && Onward(old(b.history), b.history, a)
    ensures r.Threw? ==> Thrown(b.actors, a, old(b.actors[a]))
    ensures r.Returned? ==>
              && r.value == Lookup(b.orders.rows, old(b.actors[a]).order)
              && Stands(b.actors, a, old(b.actors[a]).order, if r.value.Some? then AfterRead(r.value.value) else None)
    ensures b.Calm() ==>
              && r.Returned? && b.inventory.Contents() == old(b.inventory.Contents())
              && Kept(b, old(b.orders.rows), old(b.charges.rows)) && b.ticks == old(b.ticks) + 1
  {
    var threw := b.Begin(a);
    if threw {
      return Threw;
    }
    var Actor(o, pc) := b.actors[a];
    var doc := b.orders.FindById(o);
    b.Advance(a, if doc.Some? then AfterRead(doc.value) else None, PLAIN);
    return Returned(doc);
  }

  /** The fast path of reserveForOrder: has an earlier delivery reserved already? */
  method FindPriorReserve(b: Backend, a: ActorId) returns (r: Outcome<Option<Movement>>)
    requires b.Valid() && a in b.actors && b.actors[a].pc.PriorLookup?
    modifies b.Footprint()
    ensures b.Valid() && Onward(old(b.history), b.history, a)
    ensures r.Threw? ==> Thrown(b.actors, a, old(b.actors[a]))
    ensures r.Returned? ==>
              && r.value == Lookup(b.inventory.reserves, old(b.actors[a]).order)
              && Stands(b.actors, a, old(b.actors[a]).order,
                        Some(if r.value.Some? then ReserveCas(r.value.value.warehouse)
                             else Ranking(old(b.actors[a]).pc.items)))
    ensures b.Calm() ==>
              && r.Returned? && b.inventory.Contents() == old(b.inventory.Contents())
              && Kept(b, old(b.orders.rows), old(b.charges.rows))
  {
    var threw := b.Begin(a);
    if threw {
      return Threw;
    }
    var Actor(o, pc) := b.actors[a];
    var prior := b.inventory.FindReserve(o);
    b.Advance(a, Some(if prior.Some? then ReserveCas(prior.value.warehouse) else Ranking(pc.items)), PLAIN);
    return Returned(prior);
  }

  /** The order was accepted with this ranking of the warehouses. */
  ghost predicate Ranks(b: Backend, o: OrderId, ranked: seq<WarehouseId>)
    reads b.orders
  {
    o in b.orders.rows && b.orders.rows[o].nearest == ranked
  }

  lemma StillRanks(b: Backend, earlier: History, a: ActorId, o: OrderId, ranked: seq<WarehouseId>)
    requires b.Valid() && Onward(earlier, b.history, a)
    requires o in earlier.state.orders && earlier.state.orders[o].nearest == ranked
    ensures Ranks(b, o, ranked)
  {
    OnwardIsWithin(earlier, b.history, a);
    b.Since(earlier);
    assert Evolves(ViewOf(earlier.state, o), ViewOf(b.Snapshot(), o));
  }

  /** The ranking query and its pre-filter, outside any transaction, on the stock of that moment. */
  method RankWarehouses(b: Backend, a: ActorId, ranked: seq<WarehouseId>) returns (r: Outcome<seq<WarehouseId>>)
    requires b.Valid() && a in b.actors && b.actors[a].pc.Ranking? && Ranks(b, b.actors[a].order, ranked)
    modifies b.Footprint()
    ensures b.Valid() && Onward(old(b.history), b.history, a)
    ensures r.Threw? ==> Thrown(b.actors, a, old(b.actors[a]))
    ensures r.Returned? ==>
              && JustActed(b.history, a) && b.history.before.state.actors[a] == old(b.actors[a])
              && Onward(old(b.history), b.history.before, a)
              && r.value == Candidates(b.history.before.state.inventory.stock, ranked, old(b.actors[a]).pc.items)
              && Stands(b.actors, a, old(b.actors[a]).order, Some(Trying(old(b.actors[a]).pc.items, r.value)))
    ensures b.Calm() ==>
              && r.Returned? && b.history.before.state.inventory.stock == old(b.inventory.stock)
              && b.inventory.Contents() == old(b.inventory.Contents())
              && Kept(b, old(b.orders.rows), old(b.charges.rows))
  {
    var threw := b.Begin(a);
    if threw {
      return Threw;
    }
    StillRanks(b, old(b.history), a, b.actors[a].order, ranked);
    var Actor(o, pc) := b.actors[a];
    var candidates := b.inventory.FindCandidateWarehouses(ranked, pc.items);
    b.Advance(a, Some(Trying(pc.items, candidates)), PLAIN.(seen := b.inventory.stock));
    return Returned(candidates);
  }

  /** One reserve transaction at the nearest candidate left, on the stock of that moment. */
  method TryNearest(b: Backend, a: ActorId) returns (r: Outcome<Attempt>)
    requires b.Valid() && a in b.actors && b.actors[a].pc.Trying? && b.actors[a].pc.candidates != []
    modifies b.Footprint()
    ensures b.Valid() && Onward(old(b.history), b.history, a)
    ensures r.Threw? ==> Thrown(b.actors, a, old(b.actors[a]))
    ensures r.Returned? ==>
              && JustActed(b.history, a) && b.history.before.state.actors[a] == old(b.actors[a])
              && Onward(old(b.history), b.history.before, a)
              && var Actor(o, Trying(items, candidates)) := old(b.actors[a]);
                 var found := b.history.before.state.inventory.stock;
                 match r.value
                 case Reserved =>
                   DebitAll(found, candidates[0], items).Some?
                       && Stands(b.actors, a, o, Some(ReserveCas(candidates[0])))
                 case DuplicateKey => o in b.inventory.reserves && Stands(b.actors, a, o, Some(WinnerLookup))
                 case InsufficientStock =>
                   DebitAll(found, candidates[0], items) == None
                       && Stands(b.actors, a, o, Some(Trying(items, candidates[1..])))
    ensures b.Calm() ==>
              && r.Returned? && b.history.before.state.inventory.stock == old(b.inventory.stock)
              && (r.value == DuplicateKey <==> old(b.actors[a]).order in old(b.inventory.reserves))
              && (r.value == InsufficientStock ==> b.inventory.Contents() == old(b.inventory.Contents()))
              && Kept(b, old(b.orders.rows), old(b.charges.rows))
  {
    var threw := b.Begin(a);
    if threw {
      return Threw;
    }
    var Actor(o, pc) := b.actors[a];
    var attempt := b.inventory.TryReserveAt(o, pc.candidates[0], pc.items);
    match attempt {
      case Reserved => b.Advance(a, Some(ReserveCas(pc.candidates[0])), PLAIN);
      case DuplicateKey => b.Advance(a, Some(WinnerLookup), PLAIN);
      case InsufficientStock => b.Advance(a, Some(Trying(pc.items, pc.candidates[1..])), PLAIN);
    }
    return Returned(attempt);
  }

  /** Every candidate was short: NoWarehouseAvailableError, which is a decision of the loop and no call. */
  method GiveUpOnCandidates(b: Backend, a: ActorId)
    requires b.Valid() && a in b.actors && b.actors[a].pc.Trying? && b.actors[a].pc.candidates == []
    modifies b.Footprint()
    ensures b.Valid() && Onward(old(b.history), b.history, a)
    ensures Stands(b.actors, a, old(b.actors[a]).order, Some(OutOfStockCas))
    ensures Kept(b, old(b.orders.rows), old(b.charges.rows))
  {
    b.Advance(a, Some(OutOfStockCas), PLAIN);
  }

  /** After the unique index refused our row: the row that won. Should it be missing, the error is rethrown. */
  method FindWinningReserve(b: Backend, a: ActorId) returns (r: Outcome<WarehouseId>)
    requires b.Valid() && a in b.actors && b.actors[a].pc == WinnerLookup
    modifies b.Footprint()
    ensures b.Valid() && Onward(old(b.history), b.history, a)
    ensures r.Threw? ==> Thrown(b.actors, a, old(b.actors[a]))
    ensures r.Returned? ==>
              && Stands(b.actors, a, old(b.actors[a]).order, Some(ReserveCas(r.value)))
    ensures b.Calm() ==> r.Returned? && Kept(b, old(b.orders.rows), old(b.charges.rows))
  {
    var threw := b.Begin(a);
    if threw {
      return Threw;
    }
    var Actor(o, pc) := b.actors[a];
    b.Beliefs(a);
    var won := b.inventory.FindReserve(o);
    b.Advance(a, Some(if won.Some? then ReserveCas(won.value.warehouse) else Redelivery), PLAIN);
    return if won.Some? then Returned(won.value.warehouse) else Threw;
  }

  /** Won or lost, the order has left the status the compare-and-swap expected. */
  lemma AttemptLeaves(rows: Orders, o: OrderId, args: CasArgs, now: nat)
    requires o in rows && Edge(args.from, args.to) && Reaches(args.from, rows[o].status)
    requires rows[o].status == args.from || Rank(args.from) < Rank(rows[o].status)
    ensures var after := Transitioned(rows, o, args.from, args.to, args.patch, now);
            && o in after && Reaches(args.from, after[o].status) && Rank(args.from) < Rank(after[o].status)
            && (Matches(rows, o, args.from) ==> after[o].status == args.to)
  {
  }

  lemma CasFollowsEdges(pc: Pc)
    requires IsCas(pc)
    ensures Edge(CasOf(pc).from, CasOf(pc).to)
  {
  }

  lemma CasActs(w: World, a: ActorId, o: OrderId, pc: Pc, args: CasArgs, c: Choice)
    requires a in w.actors && w.actors[a] == Actor(o, pc) && IsCas(pc) && CasOf(pc) == args
    ensures ActStep(w, a, c)
              == Move(w.(orders := Transitioned(w.orders, o, args.from, args.to, args.patch, w.clock)), a,
                      AfterCas(pc, Matches(w.orders, o, args.from)))
  {
  }

  /** The compare-and-swap itself. */
  method SwapStatus(b: Backend, a: ActorId, ghost o: OrderId, ghost pc: Pc,
                    from: OrderStatus, to: OrderStatus, patch: TransitionPatch)
    returns (won: bool)
    requires b.Valid() && a in b.actors && b.actors[a] == Actor(o, pc) && IsCas(pc)
    requires CasOf(pc) == CasArgs(from, to, patch)
    modifies b.Footprint()
    ensures b.Valid() && Onward(old(b.history), b.history, a)
    ensures o in b.orders.rows && Reaches(from, b.orders.rows[o].status) && Rank(from) < Rank(b.orders.rows[o].status)
    ensures won ==> b.orders.rows[o].status == to
    ensures Stands(b.actors, a, o, AfterCas(pc, won))
    ensures won == Matches(old(b.orders.rows), o, from)
    ensures b.orders.rows == Transitioned(old(b.orders.rows), o, from, to, patch, old(b.clock))
    ensures b.clock == old(b.clock) && b.charges.rows == old(b.charges.rows) && b.ticks == old(b.ticks)
    ensures b.inventory.Contents() == old(b.inventory.Contents())
  {
    b.CasBeliefs(a);
    CasFollowsEdges(pc);
    AttemptLeaves(b.orders.rows, o, CasArgs(from, to, patch), b.clock);
    CasActs(b.history.state, a, o, pc, CasArgs(from, to, patch), PLAIN);
    won := b.orders.Transition(b.actors[a].order, from, to, patch, b.clock);
    b.Advance(a, AfterCas(b.actors[a].pc, won), PLAIN);
  }

  /** The compare-and-swap of worker and sweeper alike. */
  method TransitionOrder(b: Backend, a: ActorId, ghost o: OrderId, ghost pc: Pc,
                         from: OrderStatus, to: OrderStatus, patch: TransitionPatch)
    returns (r: Outcome<bool>)
    requires b.Valid() && a in b.actors && b.actors[a] == Actor(o, pc) && IsCas(pc)
    requires CasOf(pc) == CasArgs(from, to, patch)
    modifies b.Footprint()
    ensures b.Valid() && Onward(old(b.history), b.history, a)
    ensures b.ticks == old(b.ticks) + 1 && (r.Threw? <==> b.faults(b.ticks))
    ensures r.Threw? ==> Stands(b.actors, a, o, AfterThrow(pc))
    ensures r.Returned? ==>
              && o in b.orders.rows && Reaches(from, b.orders.rows[o].status)
              && Rank(from) < Rank(b.orders.rows[o].status)
              && (r.value ==> b.orders.rows[o].status == to)
              && Stands(b.actors, a, o, AfterCas(pc, r.value))
    ensures b.Calm() ==>
              && r.Returned? && r.value == Matches(old(b.orders.rows), o, from)
              && b.orders.rows == Transitioned(old(b.orders.rows), o, from, to, patch, old(b.clock))
              && b.clock == old(b.clock) && b.charges.rows == old(b.charges.rows)
              && b.inventory.Contents() == old(b.inventory.Contents())
  {
    var threw := b.Begin(a);
    if threw {
      return Threw;
    }
    ghost var mid := b.history;
    var won := SwapStatus(b, a, o, pc, from, to, patch);
    OnwardOn(old(b.history), mid, b.history, a);
    return Returned(won);
  }

  /** The customer directory: false when it has no such customer. */
  method LookupCustomer(b: Backend, a: ActorId) returns (r: Outcome<bool>)
    requires b.Valid() && a in b.actors && b.actors[a].pc.CustomerLookup?
    modifies b.Footprint()
    ensures b.Valid() && Onward(old(b.history), b.history, a)
    ensures r.Threw? ==> Thrown(b.actors, a, old(b.actors[a]))
    ensures r.Returned? ==>
              Stands(b.actors, a, old(b.actors[a]).order,
                     Some(if r.value then PspFind(old(b.actors[a]).pc.amount) else NoCustomerCas))
    ensures b.Calm() ==>
              && r == Returned(b.choices(b.ticks).customerFound) && b.ticks == old(b.ticks) + 1
              && b.inventory.Contents() == old(b.inventory.Contents())
              && Kept(b, old(b.orders.rows), old(b.charges.rows))
  {
    var threw := b.Begin(a);
    if threw {
      return Threw;
    }
    var Actor(o, pc) := b.actors[a];
    var choice := b.choices(b.ticks);
    b.Advance(a, Some(if choice.customerFound then PspFind(pc.amount) else NoCustomerCas), choice);
    return Returned(choice.customerFound);
  }

  /** The provider looks for a prior charge under the key. */
  method FindPriorCharge(b: Backend, a: ActorId) returns (r: Outcome<Option<PaymentResult>>)
    requires b.Valid() && a in b.actors && b.actors[a].pc.PspFind?
    modifies b.Footprint()
    ensures b.Valid() && Onward(old(b.history), b.history, a)
    ensures r.Threw? ==> Thrown(b.actors, a, old(b.actors[a]))
    ensures r.Returned? ==>
              && (r.value.Some? ==> ChargedAs(b, old(b.actors[a]).order, r.value.value))
              && Stands(b.actors, a, old(b.actors[a]).order,
                        Some(if r.value.Some? then PaymentCas(r.value.value)
                             else PspInsert(old(b.actors[a]).pc.amount)))
    ensures b.Calm() ==>
              && r.Returned? && (r.value.Some? <==> old(b.actors[a]).order in old(b.charges.rows))
              && b.inventory.Contents() == old(b.inventory.Contents()) && b.ticks == old(b.ticks) + 1
              && Kept(b, old(b.orders.rows), old(b.charges.rows))
  {
    var threw := b.Begin(a);
    if threw {
      return Threw;
    }
    var Actor(o, pc) := b.actors[a];
    var prior := b.charges.FindOne(o);
    var result := if prior.Some? then Some(ToResult(o, prior.value)) else None;
    b.Advance(a, Some(if result.Some? then PaymentCas(result.value) else PspInsert(pc.amount)), PLAIN);
    return Returned(result);
  }

  /** The provider stores a new charge, or is refused by its unique index (None). */
  method StoreCharge(b: Backend, a: ActorId) returns (r: Option<PaymentResult>)
    requires b.Valid() && a in b.actors && b.actors[a].pc.PspInsert?
    modifies b.Footprint()
    ensures b.Valid() && Onward(old(b.history), b.history, a)
    ensures r.Some? ==> ChargedAs(b, old(b.actors[a]).order, r.value)
    ensures r.Some? <==> old(b.actors[a]).order !in old(b.charges.rows)
    ensures r.Some? ==>
              && (r.value.success <==> !b.choices(b.ticks).declined) && r.value.amount == old(b.actors[a]).pc.amount
              && r.value.transactionId == b.choices(b.ticks).transactionId
    ensures b.ticks == old(b.ticks) && b.orders.rows == old(b.orders.rows)
    ensures b.inventory.Contents() == old(b.inventory.Contents())
    ensures Stands(b.actors, a, old(b.actors[a]).order, Some(if r.Some? then PaymentCas(r.value) else PspWinner))
  {
    var Actor(o, pc) := b.actors[a];
    var choice := b.choices(b.ticks);
    var charge := NewCharge(pc.amount, choice);
    var inserted := b.charges.Create(o, charge);
    r := if inserted then Some(ToResult(o, charge)) else None;
    b.Advance(a, Some(if r.Some? then PaymentCas(r.value) else PspWinner), choice);
  }

  /** The charge was stored, and went the way the provider chose at this operation. */
  ghost predicate Stored(b: Backend, r: Outcome<Option<PaymentResult>>)
    reads b
  {
    && r.Returned? && r.value.Some? && (r.value.value.success <==> !b.choices(b.ticks).declined)
    && r.value.value.transactionId == b.choices(b.ticks).transactionId
  }

  /** The answer to the insert may get lost on the way although the charge is stored. */
  method StoreAndAnswer(b: Backend, a: ActorId) returns (r: Outcome<Option<PaymentResult>>)
    requires b.Valid() && a in b.actors && b.actors[a].pc.PspInsert?
    modifies b.Footprint()
    ensures b.Valid() && Onward(old(b.history), b.history, a)
    ensures r.Threw? ==> Thrown(b.actors, a, old(b.actors[a]))
    ensures r.Returned? ==>
              && (r.value.Some? ==> ChargedAs(b, old(b.actors[a]).order, r.value.value))
              && Stands(b.actors, a, old(b.actors[a]).order,
                        Some(if r.value.Some? then PaymentCas(r.value.value) else PspWinner))
    ensures b.Calm() && old(b.actors[a]).order !in old(b.charges.rows) ==> Stored(b, r)
    ensures b.lostResponses(b.ticks) ==> !(r.Returned? && r.value.Some?)
    ensures b.Calm() ==>
              && r.Returned? && b.orders.rows == old(b.orders.rows) && b.ticks == old(b.ticks)
              && b.inventory.Contents() == old(b.inventory.Contents())
  {
    var result := StoreCharge(b, a);
    if result.Some? && b.lostResponses(b.ticks) {
      ghost var stored := b.history;
      b.Throw(a);
      OnwardOn(old(b.history), stored, b.history, a);
      return Threw;
    }
    return Returned(result);
  }

  /** The insert of a new charge and its answer. */
  method InsertCharge(b: Backend, a: ActorId) returns (r: Outcome<Option<PaymentResult>>)
    requires b.Valid() && a in b.actors && b.actors[a].pc.PspInsert?
    modifies b.Footprint()
    ensures b.Valid() && Onward(old(b.history), b.history, a)
    ensures r.Threw? ==> Thrown(b.actors, a, old(b.actors[a]))
    ensures r.Returned? ==>
              && (r.value.Some? ==> ChargedAs(b, old(b.actors[a]).order, r.value.value))
              && Stands(b.actors, a, old(b.actors[a]).order,
                        Some(if r.value.Some? then PaymentCas(r.value.value) else PspWinner))
    ensures b.Calm() && old(b.actors[a]).order !in old(b.charges.rows) ==> Stored(b, r)
    ensures b.lostResponses(b.ticks) ==> !(r.Returned? && r.value.Some?)
    ensures b.Calm() ==>
              && r.Returned? && b.orders.rows == old(b.orders.rows) && b.ticks == old(b.ticks) + 1
              && b.inventory.Contents() == old(b.inventory.Contents())
  {
    var threw := b.Begin(a);
    if threw {
      return Threw;
    }
    ghost var mid := b.history;
    r := StoreAndAnswer(b, a);
    OnwardOn(old(b.history), mid, b.history, a);
  }

  /** After the unique index refused our charge: the one that won. Should it be missing, the error is rethrown. */
  method FindWinningCharge(b: Backend, a: ActorId) returns (r: Outcome<PaymentResult>)
    requires b.Valid() && a in b.actors && b.actors[a].pc == PspWinner
    modifies b.Footprint()
    ensures b.Valid() && Onward(old(b.history), b.history, a)
    ensures r.Threw? ==> Thrown(b.actors, a, old(b.actors[a]))
    ensures r.Returned? ==>
              && ChargedAs(b, old(b.actors[a]).order, r.value)
              && Stands(b.actors, a, old(b.actors[a]).order, Some(PaymentCas(r.value)))
    ensures b.Calm() ==>
              && r.Returned? && b.orders.rows == old(b.orders.rows)
              && b.inventory.Contents() == old(b.inventory.Contents())
  {
    var threw := b.Begin(a);
    if threw {
      return Threw;
    }
    var Actor(o, pc) := b.actors[a];
    b.Beliefs(a);
    var winner := b.charges.FindOne(o);
    b.Advance(a, Some(if winner.Some? then PaymentCas(ToResult(o, winner.value)) else Redelivery), PLAIN);
    return if winner.Some? then Returned(ToResult(o, winner.value)) else Threw;
  }

  /** The release transaction, for whichever reason it is owed. */
  method ReleaseStock(b: Backend, a: ActorId, ghost o: OrderId, ghost pc: Pc) returns (r: Outcome<bool>)
    requires b.Valid() && a in b.actors && b.actors[a] == Actor(o, pc) && IsRelease(pc)
    modifies b.Footprint()
    ensures b.Valid() && Onward(old(b.history), b.history, a)
    ensures b.ticks == old(b.ticks) + 1 && (r.Threw? <==> b.faults(b.ticks))
    ensures r.Threw? ==> Stands(b.actors, a, o, AfterThrow(pc))
    ensures r.Returned? ==>
              && (o in b.inventory.reserves ==> o in b.inventory.releases)
              && Stands(b.actors, a, o, AfterRelease(pc))
    ensures b.Calm() ==>
              && r.Returned? && b.inventory.Contents() == ReleaseTx(old(b.inventory.Contents()), o)
              && b.orders.rows == old(b.orders.rows) && b.clock == old(b.clock) && b.charges.rows == old(b.charges.rows)
  {
    var threw := b.Begin(a);
    if threw {
      return Threw;
    }
    var released := b.inventory.ReleaseForOrder(b.actors[a].order);
    b.Advance(a, AfterRelease(b.actors[a].pc), PLAIN);
    return Returned(released);
  }

  /** The sweeper asks the provider what it recorded. */
  method LookupCharge(b: Backend, a: ActorId) returns (r: Outcome<Option<PaymentResult>>)
    requires b.Valid() && a in b.actors && b.actors[a].pc == SweepChargeLookup
    modifies b.Footprint()
    ensures b.Valid() && Onward(old(b.history), b.history, a)
    ensures b.ticks == old(b.ticks) + 1 && (r.Threw? <==> b.faults(b.ticks))
    ensures r.Threw? ==> Thrown(b.actors, a, old(b.actors[a]))
    ensures r.Returned? ==>
              && (r.value.Some? ==> ChargedAs(b, old(b.actors[a]).order, r.value.value))
              && (r.value == None ==> old(b.actors[a]).order !in b.charges.rows)
              && Stands(b.actors, a, old(b.actors[a]).order, Some(SweepResolve(r.value)))
    ensures b.Calm() ==>
              && r.Returned? && b.orders.rows == old(b.orders.rows) && b.clock == old(b.clock)
                  && b.charges.rows == old(b.charges.rows)
  {
    var threw := b.Begin(a);
    if threw {
      return Threw;
    }
    var Actor(o, pc) := b.actors[a];
    var charge := b.charges.FindOne(o);
    var result := if charge.Some? then Some(ToResult(o, charge.value)) else None;
    b.Advance(a, Some(SweepResolve(result)), PLAIN);
    return Returned(result);
  }


  /** An identity no actor has. */
  method FreshActor(b: Backend) returns (a: ActorId)
    ensures a !in b.actors
  {
    var untried := b.actors.Keys;
    a := 0;
    while a in untried
      invariant forall i :: i in b.actors && i !in untried ==> i < a
      decreases |untried|
    {
      untried := untried - {a};
      a := a + 1;
    }
  }

  /**
   * A sweeper claims the stale order updated longest ago and becomes the actor
   * handling it. When it finds none, none is stale at that moment. A claim that
   * throws has claimed nothing.
   */
  method ClaimOrder(b: Backend, status: OrderStatus) returns (claimed: Outcome<Option<OrderId>>, a: ActorId)
    requires b.Valid() && !IsTerminal(status)
    modifies b.Footprint()
    ensures b.Valid() && Within(old(b.history), b.history)
    ensures b.ticks == old(b.ticks) + 1 && (claimed.Threw? <==> b.faults(b.ticks))
    ensures claimed.Returned? && claimed.value.Some? ==>
              var o := claimed.value.value;
              && Stands(b.actors, a, o, Some(SweepStart(status)))
              && b.history.Then? && b.history.step == Claim(a, o, status) && Within(old(b.history), b.history.before)
              && IsOldestClaimable(b.history.before.state.orders, o, status, b.config.staleAfterMs, b.clock)
              && b.orders.rows == Leased(b.history.before.state.orders, o, b.config.leaseMs, b.clock)
    ensures claimed == Returned(None) ==>
              forall o :: !Claimable(b.orders.rows, o, status, b.config.staleAfterMs, b.clock)
    ensures b.Calm() ==>
              && claimed.Returned? && b.clock == old(b.clock) && b.charges.rows == old(b.charges.rows)
              && (if claimed.value.Some? then b.history.before.state.orders else b.orders.rows) == old(b.orders.rows)
  {
    b.PassTime();
    a := FreshActor(b);
    if b.faults(b.ticks) {
      return Threw, a;
    }
    var found := b.orders.ClaimStale(status, b.config.staleAfterMs, b.config.leaseMs, b.clock);
    if found.Some? {
      b.actors := b.actors[a := Actor(found.value, SweepStart(status))];
      b.lastClaim := b.lastClaim[found.value := b.clock];
      b.Record(Claim(a, found.value, status));
    }
    return Returned(found), a;
  }

  function Leased(rows: Orders, o: OrderId, leaseMs: nat, now: nat): Orders
    requires o in rows
  {
    rows[o := Claimed(rows[o], leaseMs, now)]
  }
}
