/**
 * What every reachable state of the protocol satisfies, with no hypothesis on
 * scheduling, crashes, lost responses or vanished customers.
 */
module SagaInvariant {
  import opened Wrappers
  import opened OrderStatuses
  import opened StockLedger
  import opened Charges
  import opened Orders
  import opened SagaProtocol

  /** Everything the four collections say about one order. */
  datatype View = View(order: Order, reserve: Option<Movement>, release: Option<Movement>, charge: Option<Charge>)

  function ViewOf(w: World, o: OrderId): View
    requires o in w.orders
  {
    View(w.orders[o], Lookup(w.inventory.reserves, o), Lookup(w.inventory.releases, o), Lookup(w.charges, o))
  }

  /** The order once reserved stock and the document names the warehouse of the ledger. */
  predicate Holding(v: View) {
    v.reserve.Some? && v.order.warehouseId == Some(v.reserve.value.warehouse)
  }

  predicate Untouched(order: Order) {
    order.warehouseId == None && order.paymentResult == None
  }

  /** The order is paid: one succeeded charge over the full amount, recorded on the document. */
  predicate Paid(o: OrderId, v: View) {
    && v.charge.Some? && v.charge.value.status == SUCCEEDED
    && v.order.paymentResult == Some(ToResult(o, v.charge.value))
    && v.order.failureCode == None
  }

  predicate Unwinding(o: OrderId, v: View) {
    && Holding(v)
    && (v.order.failureCode == Some(PAYMENT_DECLINED) || v.order.failureCode == Some(RECONCILED_NO_CHARGE))
    && (v.order.paymentResult.Some? ==>
          v.charge.Some? && v.charge.value.status == DECLINED
          && v.order.paymentResult == Some(ToResult(o, v.charge.value)))
  }

  /** Status, movement ledger and charge ledger of one order agree. */
  predicate OrderOk(o: OrderId, v: View) {
    && (v.reserve.Some? ==> v.reserve.value.items == v.order.items)
    && (v.release.Some? ==> v.release == v.reserve)
    && (v.charge.Some? ==> v.reserve.Some? && v.charge.value.amount == v.order.totalAmount)
    && match v.order.status
       case PENDING =>
         Untouched(v.order) && v.release == None && v.charge == None && v.order.failureCode == None
       case FAILED =>
         Untouched(v.order) && v.charge == None
         && (v.order.failureCode == Some(OUT_OF_STOCK) || v.order.failureCode == Some(RECONCILED_TIMEOUT))
       case STOCK_RESERVED =>
         Holding(v) && v.release == None && v.order.paymentResult == None && v.order.failureCode == None
       case PAYMENT_AUTHORIZED => Holding(v) && v.release == None && Paid(o, v)
       case COMPLETED => Holding(v) && v.release == None && Paid(o, v)
       case COMPENSATING => Unwinding(o, v)
       case COMPENSATED => Unwinding(o, v) && v.release.Some?
  }

  /** The order was reserved and has left PENDING that way; it can never become FAILED. */
  predicate PastReserve(v: View) {
    v.order.status != PENDING && v.order.status != FAILED
  }

  predicate CompensationOwed(v: View) {
    v.order.status == COMPENSATING || v.order.status == COMPENSATED
  }

  /** What an actor may still believe about its order, however long ago it looked. */
  predicate PcOk(o: OrderId, v: View, pc: Pc) {
    match pc
    case PriorLookup(items) => items == v.order.items
    case Ranking(items) => items == v.order.items
    case Trying(items, _) => items == v.order.items
    case WinnerLookup => v.reserve.Some?
    case ReserveCas(warehouse) => v.reserve.Some? && v.reserve.value.warehouse == warehouse
    case CustomerLookup(amount) => PastReserve(v) && amount == v.order.totalAmount
    case NoCustomerCas => PastReserve(v)
    case PspFind(amount) => PastReserve(v) && amount == v.order.totalAmount
    case PspInsert(amount) => PastReserve(v) && amount == v.order.totalAmount
    case OrphanFind(amount) => PastReserve(v) && amount == v.order.totalAmount
    case OrphanInsert(amount) => PastReserve(v) && amount == v.order.totalAmount
    case PspWinner => PastReserve(v) && v.charge.Some?
    case PaymentCas(result) => v.charge.Some? && result == ToResult(o, v.charge.value)
    case CompleteCas => v.order.status == PAYMENT_AUTHORIZED || v.order.status == COMPLETED
    case SweepComplete => v.order.status == PAYMENT_AUTHORIZED || v.order.status == COMPLETED
    case CompensationRelease => CompensationOwed(v)
    case SweepRelease => CompensationOwed(v)
    case CompensatedCas => CompensationOwed(v) && v.release.Some?
    case SweepCompensatedCas => CompensationOwed(v) && v.release.Some?
    case FailedRelease => v.order.status == FAILED
    case SweepFailRelease => v.order.status == FAILED
    case SweepChargeLookup => PastReserve(v)
    case SweepResolve(found) =>
      PastReserve(v) && (found.Some? ==> v.charge.Some? && found == Some(ToResult(o, v.charge.value)))
    case _ => true
  }

  /** A job for an order that does not exist is dropped at its first read. */
  predicate ActorOk(w: World, actor: Actor) {
    if actor.order in w.orders then PcOk(actor.order, ViewOf(w, actor.order), actor.pc)
    else actor.pc == Redelivery || actor.pc == Reading
  }

  ghost predicate Inv(w: World) {
    && LedgerOk(w.inventory, w.supplied)
    && w.inventory.reserves.Keys <= w.orders.Keys
    && w.charges.Keys <= w.orders.Keys
    && (forall o :: o in w.orders ==> OrderOk(o, ViewOf(w, o)))
    && (forall a :: a in w.actors ==> ActorOk(w, w.actors[a]))
  }

  // ---------------------------------------------------------------- what never goes back

  /** Rows are written once, frozen fields stay, and the status only follows the arrows. */
  predicate Evolves(v: View, v': View) {
    && v'.order.items == v.order.items
    && v'.order.nearest == v.order.nearest
    && v'.order.totalAmount == v.order.totalAmount
    && Reaches(v.order.status, v'.order.status)
    && (v.reserve.Some? ==> v'.reserve == v.reserve)
    && (v.release.Some? ==> v'.release == v.release)
    && (v.charge.Some? ==> v'.charge == v.charge)
    && (v.order.warehouseId.Some? ==> v'.order.warehouseId == v.order.warehouseId)
    && (v.order.paymentResult.Some? ==> v'.order.paymentResult == v.order.paymentResult)
    && (v.order.failureCode.Some? ==> v'.order.failureCode == v.order.failureCode)
  }

  ghost predicate WorldEvolves(w: World, w': World) {
    forall o :: o in w.orders ==> o in w'.orders && Evolves(ViewOf(w, o), ViewOf(w', o))
  }

  lemma EvolvesTransitive(w0: World, w1: World, w2: World)
    requires WorldEvolves(w0, w1) && WorldEvolves(w1, w2)
    ensures WorldEvolves(w0, w2)
  {
  }

  /** Orders stay, and statuses only follow the arrows. */
  ghost predicate Climbs(before: Orders, after: Orders) {
    forall o :: o in before ==> o in after && Reaches(before[o].status, after[o].status)
  }

  lemma EvolvingClimbs(w: World, w': World)
    requires WorldEvolves(w, w')
    ensures Climbs(w.orders, w'.orders)
  {
  }

  /** Whatever an actor believes stays true while others act. */
  lemma BeliefsAreStable(o: OrderId, v: View, v': View, pc: Pc)
    requires Evolves(v, v') && PcOk(o, v, pc)
    ensures PcOk(o, v', pc)
  {
  }

  // ---------------------------------------------------------------- one step

  lemma ActorSurvives(w: World, w': World, actor: Actor)
    requires ActorOk(w, actor) && w'.orders.Keys == w.orders.Keys
    requires actor.order in w.orders ==> Evolves(ViewOf(w, actor.order), ViewOf(w', actor.order))
    ensures ActorOk(w', actor)
  {
  }

  /** A change to the collections that concerns one order keeps the invariant if it does so for that order. */
  lemma LocalChangeKeepsInv(w: World, w': World, o: OrderId)
    requires Inv(w) && o in w.orders
    requires LedgerOk(w'.inventory, w'.supplied)
    requires w'.actors == w.actors && w'.orders.Keys == w.orders.Keys
    requires w'.inventory.reserves.Keys <= w.orders.Keys && w'.charges.Keys <= w.orders.Keys
    requires forall p :: p in w.orders && p != o ==> ViewOf(w', p) == ViewOf(w, p)
    requires OrderOk(o, ViewOf(w', o)) && Evolves(ViewOf(w, o), ViewOf(w', o))
    ensures Inv(w') && WorldEvolves(w, w')
  {
    forall p | p in w.orders ensures Evolves(ViewOf(w, p), ViewOf(w', p)) {
    }
    forall a | a in w'.actors ensures ActorOk(w', w'.actors[a]) {
      ActorSurvives(w, w', w.actors[a]);
    }
  }

  /** What the invariant says about one actor and its order. */
  lemma Known(w: World, a: ActorId)
    requires Inv(w) && a in w.actors
    ensures var o := w.actors[a].order;
            ActorOk(w, w.actors[a]) && (o in w.orders ==> OrderOk(o, ViewOf(w, o)))
  {
  }

  lemma MoveKeepsInv(base: World, w: World, a: ActorId, next: Option<Pc>)
    requires Inv(w) && WorldEvolves(base, w) && a in w.actors
    requires next.Some? ==> ActorOk(w, Actor(w.actors[a].order, next.value))
    ensures Inv(Move(w, a, next)) && WorldEvolves(base, Move(w, a, next))
  {
  }

  /** A compare-and-swap an actor may attempt writes a document that fits the ledgers, and the actor may go on. */
  lemma CasFits(o: OrderId, v: View, pc: Pc, now: nat)
    requires IsCas(pc) && OrderOk(o, v) && PcOk(o, v, pc)
    ensures var CasArgs(from, to, patch) := CasOf(pc);
            var v' := if v.order.status == from then v.(order := Advanced(v.order, to, patch, now)) else v;
            && OrderOk(o, v') && Evolves(v, v')
            && var next := AfterCas(pc, v.order.status == from); next.Some? ==> PcOk(o, v', next.value)
  {
  }

  lemma CasView(w: World, o: OrderId, args: CasArgs)
    requires o in w.orders
    ensures ViewOf(Cas(w, o, args), o) ==
            if w.orders[o].status == args.from
            then ViewOf(w, o).(order := Advanced(w.orders[o], args.to, args.patch, w.clock))
            else ViewOf(w, o)
    ensures forall p :: p in w.orders && p != o ==> ViewOf(Cas(w, o, args), p) == ViewOf(w, p)
  {
  }

  /** An actor about to attempt a transition is at its origin or behind the times, never ahead of them. */
  lemma CasBelief(o: OrderId, v: View, pc: Pc)
    requires IsCas(pc) && OrderOk(o, v) && PcOk(o, v, pc)
    ensures Reaches(CasOf(pc).from, v.order.status)
    ensures v.order.status == CasOf(pc).from || Rank(CasOf(pc).from) < Rank(v.order.status)
  {
  }

  lemma AttemptKeepsInv(w: World, o: OrderId, pc: Pc)
    requires Inv(w) && o in w.orders && IsCas(pc) && PcOk(o, ViewOf(w, o), pc)
    ensures var w', next := Cas(w, o, CasOf(pc)), AfterCas(pc, Matches(w.orders, o, CasOf(pc).from));
            && Inv(w') && WorldEvolves(w, w')
            && (next.Some? ==> ActorOk(w', Actor(o, next.value)))
  {
    CasFits(o, ViewOf(w, o), pc, w.clock);
    CasView(w, o, CasOf(pc));
    LocalChangeKeepsInv(w, Cas(w, o, CasOf(pc)), o);
  }

  lemma CasKeepsInv(w: World, a: ActorId)
    requires Inv(w) && a in w.actors && IsCas(w.actors[a].pc)
    ensures Inv(CasStep(w, a)) && WorldEvolves(w, CasStep(w, a))
  {
    var Actor(o, pc) := w.actors[a];
    Known(w, a);
    AttemptKeepsInv(w, o, pc);
    MoveKeepsInv(w, Cas(w, o, CasOf(pc)), a, AfterCas(pc, Matches(w.orders, o, CasOf(pc).from)));
  }

  /** What a release writes fits an order that is failed or being compensated, and its actor may go on. */
  lemma ReleaseFits(o: OrderId, v: View, pc: Pc)
    requires IsRelease(pc) && OrderOk(o, v) && PcOk(o, v, pc)
    ensures var v' := v.(release := v.reserve);
            && OrderOk(o, v') && Evolves(v, v')
            && var next := AfterRelease(pc); next.Some? ==> PcOk(o, v', next.value)
  {
  }

  lemma ReleaseView(w: World, o: OrderId)
    requires o in w.orders && ReleasesCopyReserves(w.inventory)
    ensures ViewOf(Release(w, o), o) == ViewOf(w, o).(release := ViewOf(w, o).reserve)
    ensures forall p :: p in w.orders && p != o ==> ViewOf(Release(w, o), p) == ViewOf(w, p)
  {
  }

  lemma ReleasedKeepsInv(w: World, o: OrderId, pc: Pc)
    requires Inv(w) && o in w.orders && IsRelease(pc) && PcOk(o, ViewOf(w, o), pc)
    ensures Inv(Release(w, o)) && WorldEvolves(w, Release(w, o))
    ensures var next := AfterRelease(pc); next.Some? ==> ActorOk(Release(w, o), Actor(o, next.value))
  {
    var mid := Release(w, o);
    ReleaseFits(o, ViewOf(w, o), pc);
    ReleaseKeepsLedger(w.inventory, w.supplied, o);
    ReleaseView(w, o);
    LocalChangeKeepsInv(w, mid, o);
  }

  lemma ReleaseKeepsInv(w: World, a: ActorId)
    requires Inv(w) && a in w.actors && IsRelease(w.actors[a].pc)
    ensures Inv(ReleaseStep(w, a)) && WorldEvolves(w, ReleaseStep(w, a))
  {
    var Actor(o, pc) := w.actors[a];
    Known(w, a);
    ReleasedKeepsInv(w, o, pc);
    MoveKeepsInv(w, Release(w, o), a, AfterRelease(pc));
  }

  lemma ReservedKeepsInv(w: World, o: OrderId, warehouse: WarehouseId, items: seq<Item>)
    requires Inv(w) && o in w.orders && items == w.orders[o].items
    requires ReserveTx(w.inventory, o, warehouse, items).Committed?
    ensures var w' := w.(inventory := ReserveTx(w.inventory, o, warehouse, items).after);
            Inv(w') && WorldEvolves(w, w') && ActorOk(w', Actor(o, ReserveCas(warehouse)))
  {
    var w' := w.(inventory := ReserveTx(w.inventory, o, warehouse, items).after);
    ReserveKeepsLedger(w.inventory, w.supplied, o, warehouse, items);
    assert OrderOk(o, ViewOf(w, o));
    LocalChangeKeepsInv(w, w', o);
  }

  lemma TryKeepsInv(w: World, a: ActorId)
    requires Inv(w) && a in w.actors && w.actors[a].pc.Trying?
    ensures Inv(TryStep(w, a)) && WorldEvolves(w, TryStep(w, a))
  {
    var Actor(o, Trying(items, candidates)) := w.actors[a];
    Known(w, a);
    if candidates == [] {
      MoveKeepsInv(w, w, a, Some(OutOfStockCas));
      return;
    }
    match ReserveTx(w.inventory, o, candidates[0], items)
    case Committed(after) =>
      ReservedKeepsInv(w, o, candidates[0], items);
      MoveKeepsInv(w, w.(inventory := after), a, Some(ReserveCas(candidates[0])));
    case Duplicate => MoveKeepsInv(w, w, a, Some(WinnerLookup));
    case Short => MoveKeepsInv(w, w, a, Some(Trying(items, candidates[1..])));
  }

  /** A first charge fits any order that holds stock and is not yet paid. */
  lemma ChargeFits(o: OrderId, v: View, charge: Charge)
    requires OrderOk(o, v) && PastReserve(v) && v.charge == None && charge.amount == v.order.totalAmount
    ensures OrderOk(o, v.(charge := Some(charge))) && Evolves(v, v.(charge := Some(charge)))
  {
  }

  lemma ChargeView(w: World, o: OrderId, amount: nat, c: Choice)
    requires o in w.orders
    ensures o in Charged(w, o, amount, c).charges
    ensures ViewOf(Charged(w, o, amount, c), o) == ViewOf(w, o).(charge := Some(Charged(w, o, amount, c).charges[o]))
    ensures o !in w.charges ==> Charged(w, o, amount, c).charges[o].amount == amount
    ensures o in w.charges ==> Charged(w, o, amount, c) == w
    ensures forall p :: p in w.orders && p != o ==> ViewOf(Charged(w, o, amount, c), p) == ViewOf(w, p)
  {
  }

  lemma ChargedKeepsInv(w: World, o: OrderId, amount: nat, c: Choice)
    requires Inv(w) && o in w.orders && PastReserve(ViewOf(w, o)) && amount == w.orders[o].totalAmount
    ensures Inv(Charged(w, o, amount, c)) && WorldEvolves(w, Charged(w, o, amount, c))
    ensures o in Charged(w, o, amount, c).charges
    ensures PastReserve(ViewOf(Charged(w, o, amount, c), o))
  {
    var mid := Charged(w, o, amount, c);
    ChargeView(w, o, amount, c);
    if o !in w.charges {
      ChargeFits(o, ViewOf(w, o), mid.charges[o]);
      LocalChangeKeepsInv(w, mid, o);
    }
  }

  lemma InsertKeepsInv(w: World, a: ActorId, c: Choice)
    requires Inv(w) && a in w.actors && IsInsert(w.actors[a].pc)
    ensures Inv(InsertStep(w, a, c)) && WorldEvolves(w, InsertStep(w, a, c))
  {
    var Actor(o, pc) := w.actors[a];
    Known(w, a);
    ChargedKeepsInv(w, o, pc.amount, c);
    MoveKeepsInv(w, Charged(w, o, pc.amount, c), a, AfterInsert(o, Lookup(w.charges, o), pc, c));
  }

  /** A read leaves its actor with a belief that holds at the moment of reading. */
  lemma LookFits(w: World, o: OrderId, pc: Pc, c: Choice)
    requires IsLook(pc) && ActorOk(w, Actor(o, pc)) && (o in w.orders ==> OrderOk(o, ViewOf(w, o)))
    ensures var next := AfterLook(o, Lookup(w.orders, o), Lookup(w.inventory.reserves, o), Lookup(w.charges, o), pc, c);
            next.Some? ==> ActorOk(w, Actor(o, next.value))
  {
  }

  lemma LookKeepsInv(w: World, a: ActorId, c: Choice)
    requires Inv(w) && a in w.actors && IsLook(w.actors[a].pc)
    ensures Inv(LookStep(w, a, c)) && WorldEvolves(w, LookStep(w, a, c))
  {
    var Actor(o, pc) := w.actors[a];
    Known(w, a);
    LookFits(w, o, pc, c);
    MoveKeepsInv(w, w, a,
                 AfterLook(o, Lookup(w.orders, o), Lookup(w.inventory.reserves, o), Lookup(w.charges, o), pc, c));
  }

  lemma ActKeepsInv(w: World, a: ActorId, c: Choice)
    requires Inv(w) && a in w.actors
    ensures Inv(ActStep(w, a, c)) && WorldEvolves(w, ActStep(w, a, c))
  {
    var pc := w.actors[a].pc;
    if IsCas(pc) {
      CasKeepsInv(w, a);
    } else if IsRelease(pc) {
      ReleaseKeepsInv(w, a);
    } else if IsInsert(pc) {
      InsertKeepsInv(w, a, c);
    } else if pc.Trying? {
      TryKeepsInv(w, a);
    } else {
      LookKeepsInv(w, a, c);
    }
  }

  /** A new actor joins with beliefs that hold. */
  lemma JoinKeepsInv(base: World, w: World, a: ActorId, actor: Actor)
    requires Inv(w) && WorldEvolves(base, w) && ActorOk(w, actor)
    ensures var w' := w.(actors := w.actors[a := actor]); Inv(w') && WorldEvolves(base, w')
  {
  }

  lemma AcceptKeepsInv(w: World, w': World, o: OrderId, doc: Order)
    requires Inv(w) && o !in w.orders && w' == w.(orders := w.orders[o := doc])
    requires doc == NewOrder(doc.items, doc.nearest, doc.totalAmount, doc.updatedAt)
    ensures Inv(w') && WorldEvolves(w, w')
  {
    assert o !in w.inventory.releases && o !in w.inventory.reserves && o !in w.charges;
    forall p | p in w.orders ensures ViewOf(w', p) == ViewOf(w, p) {
    }
    forall a | a in w'.actors ensures ActorOk(w', w'.actors[a]) {
      assert ActorOk(w, w.actors[a]);
    }
  }

  /** Changes that no order and no actor can see. */
  lemma InvisibleKeepsInv(w: World, w': World)
    requires Inv(w) && LedgerOk(w'.inventory, w'.supplied)
    requires w'.orders == w.orders && w'.charges == w.charges && w'.actors == w.actors
    requires w'.inventory.reserves == w.inventory.reserves && w'.inventory.releases == w.inventory.releases
    ensures Inv(w') && WorldEvolves(w, w')
  {
  }

  /** The lease fields are no business of the invariant. */
  lemma LeaseKeepsInv(w: World, w': World, o: OrderId)
    requires Inv(w) && o in w.orders
    requires w' == w.(orders := w.orders[o := Claimed(w.orders[o], w.config.leaseMs, w.clock)],
                      lastClaim := w.lastClaim[o := w.clock])
    ensures Inv(w') && WorldEvolves(w, w')
    ensures !IsTerminal(w.orders[o].status) ==> ActorOk(w', Actor(o, SweepStart(w.orders[o].status)))
  {
    assert OrderOk(o, ViewOf(w, o));
    assert ViewOf(w', o) == ViewOf(w, o).(order := w'.orders[o]);
    LocalChangeKeepsInv(w, w', o);
    if !IsTerminal(w.orders[o].status) {
      SweepStartFits(o, ViewOf(w', o));
    }
  }

  lemma SweepStartFits(o: OrderId, v: View)
    requires OrderOk(o, v) && !IsTerminal(v.order.status)
    ensures PcOk(o, v, SweepStart(v.order.status))
  {
  }

  lemma ClaimKeepsInv(w: World, a: ActorId, o: OrderId)
    requires Inv(w) && o in w.orders && !IsTerminal(w.orders[o].status)
    ensures Inv(ClaimStep(w, a, o)) && WorldEvolves(w, ClaimStep(w, a, o))
  {
    var mid := w.(orders := w.orders[o := Claimed(w.orders[o], w.config.leaseMs, w.clock)],
                  lastClaim := w.lastClaim[o := w.clock]);
    LeaseKeepsInv(w, mid, o);
    JoinKeepsInv(w, mid, a, Actor(o, SweepStart(w.orders[o].status)));
  }

  lemma CrashKeepsInv(w: World, a: ActorId, orphan: Option<ActorId>)
    requires Inv(w) && a in w.actors && (orphan.Some? ==> Remains(w.actors[a].pc).Some?)
    ensures Inv(CrashStep(w, a, orphan)) && WorldEvolves(w, CrashStep(w, a, orphan))
  {
    Known(w, a);
    var o := w.actors[a].order;
    if orphan.Some? {
      var left := Actor(o, Remains(w.actors[a].pc).value);
      JoinKeepsInv(w, w, orphan.value, left);
      JoinKeepsInv(w, w.(actors := w.actors[orphan.value := left]), a, Actor(o, Redelivery));
    } else {
      JoinKeepsInv(w, w, a, Actor(o, Redelivery));
    }
  }

  /** Every enabled step keeps the invariant and undoes nothing already written. */
  lemma StepKeepsInv(w: World, s: Step)
    requires Inv(w) && Enabled(w, s)
    ensures Inv(Apply(w, s)) && WorldEvolves(w, Apply(w, s))
  {
    match s
    case AcceptOrder(o, items, nearest, total) =>
      AcceptKeepsInv(w, Apply(w, s), o, NewOrder(items, nearest, total, w.clock));
    case TopUp(key, quantity) =>
      AddKeepsLedger(w.inventory, w.supplied, key, quantity);
      InvisibleKeepsInv(w, Apply(w, s));
    case Wait(ms) => InvisibleKeepsInv(w, Apply(w, s));
    case Deliver(a, o) => JoinKeepsInv(w, w, a, Actor(o, Reading));
    case Crash(a, orphan) => CrashKeepsInv(w, a, orphan);
    case GiveUp(a) => MoveKeepsInv(w, w, a, None);
    case Claim(a, o, status) => ClaimKeepsInv(w, a, o);
    case SweeperStops(a) => MoveKeepsInv(w, w, a, None);
    case Act(a, c) => ActKeepsInv(w, a, c);
  }

  // ---------------------------------------------------------------- whole runs

  lemma InitialInv(w: World)
    requires Initial(w)
    ensures Inv(w)
  {
  }

  /** The invariant holds after every run, and everything written along it stays written. */
  lemma {:induction false} RunKeepsInv(w: World, steps: seq<Step>)
    requires Inv(w) && ValidRun(w, steps)
    ensures Inv(Run(w, steps)) && WorldEvolves(w, Run(w, steps))
    decreases |steps|
  {
    if steps != [] {
      var next := Apply(w, steps[0]);
      StepKeepsInv(w, steps[0]);
      RunKeepsInv(next, steps[1..]);
      EvolvesTransitive(w, next, Run(w, steps));
    }
  }

  // ---------------------------------------------------------------- who can change what

  /** What an operation makes of its own order and where it leaves its actor. */
  datatype Local = Local(view: View, next: Option<Pc>)

  function LocalStep(o: OrderId, v: View, pc: Pc, c: Choice, now: nat, fits: bool): Local {
    if IsCas(pc) then
      var CasArgs(from, to, patch) := CasOf(pc);
      var won := v.order.status == from;
      Local(if won then v.(order := Advanced(v.order, to, patch, now)) else v, AfterCas(pc, won))
    else if IsRelease(pc) then Local(v.(release := v.reserve), AfterRelease(pc))
    else if IsInsert(pc) then
      Local(if v.charge.Some? then v else v.(charge := Some(NewCharge(pc.amount, c))), AfterInsert(o, v.charge, pc, c))
    else if pc.Trying? then
      if pc.candidates == [] then Local(v, Some(OutOfStockCas))
      else if v.reserve.Some? then Local(v, Some(WinnerLookup))
      else if fits then Local(v.(reserve := Some(Movement(pc.candidates[0], pc.items))),
                              Some(ReserveCas(pc.candidates[0])))
      else Local(v, Some(Trying(pc.items, pc.candidates[1..])))
    else Local(v, AfterLook(o, Some(v.order), v.reserve, v.charge, pc, c))
  }

  /** Only the actor's own order and the actor itself may look different afterwards, and in this way. */
  ghost predicate TouchesOnly(w: World, w': World, a: ActorId, local: Local)
    requires a in w.actors
  {
    && w'.orders.Keys == w.orders.Keys
    && (forall p :: p in w.orders && p != w.actors[a].order ==> ViewOf(w', p) == ViewOf(w, p))
    && (w.actors[a].order in w.orders ==> ViewOf(w', w.actors[a].order) == local.view)
    && (a in w'.actors <==> local.next.Some?)
    && (a in w'.actors ==> w'.actors[a] == Actor(w.actors[a].order, local.next.value))
    && (forall b :: b != a ==> (b in w'.actors <==> b in w.actors))
    && (forall b :: b != a && b in w.actors ==> w'.actors[b] == w.actors[b])
  }

  lemma MoveTouchesOnly(w: World, mid: World, a: ActorId, view: View, next: Option<Pc>)
    requires a in w.actors && mid.actors == w.actors && mid.orders.Keys == w.orders.Keys
    requires forall p :: p in w.orders && p != w.actors[a].order ==> ViewOf(mid, p) == ViewOf(w, p)
    requires w.actors[a].order in w.orders ==> ViewOf(mid, w.actors[a].order) == view
    ensures TouchesOnly(w, Move(mid, a, next), a, Local(view, next))
  {
  }

  lemma TryTouchesOnly(w: World, a: ActorId, c: Choice)
    requires a in w.actors && w.actors[a].pc.Trying? && w.actors[a].order in w.orders
    ensures var Actor(o, pc) := w.actors[a];
            var fits := pc.candidates != [] && DebitAll(w.inventory.stock, pc.candidates[0], pc.items).Some?;
            TouchesOnly(w, TryStep(w, a), a, LocalStep(o, ViewOf(w, o), pc, c, w.clock, fits))
  {
    var Actor(o, Trying(items, candidates)) := w.actors[a];
    var v := ViewOf(w, o);
    if candidates == [] {
      MoveTouchesOnly(w, w, a, v, Some(OutOfStockCas));
      return;
    }
    match ReserveTx(w.inventory, o, candidates[0], items)
    case Committed(after) =>
      var mid := w.(inventory := after);
      forall p | p in w.orders && p != o ensures ViewOf(mid, p) == ViewOf(w, p) {
      }
      MoveTouchesOnly(w, mid, a, v.(reserve := Some(Movement(candidates[0], items))), Some(ReserveCas(candidates[0])));
    case Duplicate => MoveTouchesOnly(w, w, a, v, Some(WinnerLookup));
    case Short => MoveTouchesOnly(w, w, a, v, Some(Trying(items, candidates[1..])));
  }

  lemma LookTouchesOnly(w: World, a: ActorId, c: Choice)
    requires a in w.actors && IsLook(w.actors[a].pc)
    ensures var Actor(o, pc) := w.actors[a];
            var next := AfterLook(o, Lookup(w.orders, o), Lookup(w.inventory.reserves, o), Lookup(w.charges, o), pc, c);
            forall v: View :: (o in w.orders ==> v == ViewOf(w, o)) ==>
                TouchesOnly(w, LookStep(w, a, c), a, Local(v, next))
  {
  }

  /** An actor's operation concerns its own order and leaves every other actor where it was. */
  lemma ActTouchesOnly(w: World, a: ActorId, c: Choice) returns (fits: bool)
    requires Inv(w) && a in w.actors && w.actors[a].order in w.orders
    ensures var Actor(o, pc) := w.actors[a];
            TouchesOnly(w, ActStep(w, a, c), a, LocalStep(o, ViewOf(w, o), pc, c, w.clock, fits))
  {
    var Actor(o, pc) := w.actors[a];
    fits := false;
    if IsCas(pc) {
      CasView(w, o, CasOf(pc));
      MoveTouchesOnly(w, Cas(w, o, CasOf(pc)), a, LocalStep(o, ViewOf(w, o), pc, c, w.clock, fits).view,
                      AfterCas(pc, Matches(w.orders, o, CasOf(pc).from)));
    } else if IsRelease(pc) {
      ReleaseView(w, o);
      MoveTouchesOnly(w, Release(w, o), a, ViewOf(w, o).(release := ViewOf(w, o).reserve), AfterRelease(pc));
    } else if IsInsert(pc) {
      ChargeView(w, o, pc.amount, c);
      MoveTouchesOnly(w, Charged(w, o, pc.amount, c), a, LocalStep(o, ViewOf(w, o), pc, c, w.clock, fits).view,
                      AfterInsert(o, Lookup(w.charges, o), pc, c));
    } else if pc.Trying? {
      fits := pc.candidates != [] && DebitAll(w.inventory.stock, pc.candidates[0], pc.items).Some?;
      TryTouchesOnly(w, a, c);
    } else {
      LookTouchesOnly(w, a, c);
    }
  }

  /** The part of `TouchesOnly` that concerns everybody else; it also covers a job for an order that does not exist. */
  ghost predicate OthersUntouched(w: World, w': World, a: ActorId)
    requires a in w.actors
  {
    && w'.orders.Keys == w.orders.Keys
    && (forall p :: p in w.orders && p != w.actors[a].order ==> ViewOf(w', p) == ViewOf(w, p))
    && (a in w'.actors ==> w'.actors[a].order == w.actors[a].order)
    && (forall b :: b != a ==> (b in w'.actors <==> b in w.actors))
    && (forall b :: b != a && b in w.actors ==> w'.actors[b] == w.actors[b])
  }

  lemma ActLeavesOthers(w: World, a: ActorId, c: Choice)
    requires Inv(w) && a in w.actors
    ensures OthersUntouched(w, ActStep(w, a, c), a)
  {
    if w.actors[a].order in w.orders {
      var fits := ActTouchesOnly(w, a, c);
    } else {
      assert ActorOk(w, w.actors[a]);
      LookTouchesOnly(w, a, c);
      var anyView := View(NewOrder([], [], 0, 0), None, None, None);
      var Actor(o, pc) := w.actors[a];
      assert TouchesOnly(w, LookStep(w, a, c), a,
                         Local(anyView,
                               AfterLook(o, None, Lookup(w.inventory.reserves, o), Lookup(w.charges, o), pc, c)));
    }
  }
}
