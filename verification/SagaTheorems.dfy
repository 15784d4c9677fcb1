/** The invariant read off for whole runs, in the words of the source's own comments. */
module SagaTheorems {
  import opened Wrappers
  import opened Totals
  import opened OrderStatuses
  import opened StockLedger
  import opened Charges
  import opened Orders
  import opened SagaProtocol
  import opened SagaInvariant
  import opened Leases

  lemma ReachableInv(w: World, steps: seq<Step>)
    requires Initial(w) && ValidRun(w, steps)
    ensures Inv(Run(w, steps))
  {
    InitialInv(w);
    RunKeepsInv(w, steps);
  }

  /** Status and movement ledger agree, whatever the actors last saw. */
  lemma StatusAgreesWithMovements(w: World, steps: seq<Step>, o: OrderId)
    requires Initial(w) && ValidRun(w, steps) && o in Run(w, steps).orders
    ensures var end := Run(w, steps);
            var order, reserved, released := end.orders[o], o in end.inventory.reserves, o in end.inventory.releases;
            && (order.status in {STOCK_RESERVED, PAYMENT_AUTHORIZED, COMPLETED} ==> reserved && !released)
            && (order.status == COMPENSATED ==> reserved && released)
            && (released ==> order.status in {FAILED, COMPENSATING, COMPENSATED})
            && (released ==> reserved && end.inventory.releases[o] == end.inventory.reserves[o])
            && (reserved ==> end.inventory.reserves[o].items == order.items)
            && (order.warehouseId.Some? <==> order.status != PENDING && order.status != FAILED)
            && (order.warehouseId.Some? ==> reserved && end.inventory.reserves[o].warehouse == order.warehouseId.value)
  {
    ReachableInv(w, steps);
    assert OrderOk(o, ViewOf(Run(w, steps), o));
  }

  /** Status and charge ledger agree, with no hypothesis on races. */
  lemma StatusAgreesWithCharges(w: World, steps: seq<Step>, o: OrderId)
    requires Initial(w) && ValidRun(w, steps) && o in Run(w, steps).orders
    ensures var end := Run(w, steps);
            var order := end.orders[o];
            && (order.status in {PAYMENT_AUTHORIZED, COMPLETED} ==>
                  && o in end.charges && end.charges[o].status == SUCCEEDED
                  && end.charges[o].amount == order.totalAmount
                  && order.paymentResult.Some?
                  && order.paymentResult.value.success && order.paymentResult.value.idempotencyKey == o
                  && order.paymentResult.value.transactionId == end.charges[o].transactionId
                  && order.paymentResult.value.amount == order.totalAmount)
            && (order.status in {COMPENSATING, COMPENSATED} && order.paymentResult.Some? ==>
                  o in end.charges && end.charges[o].status == DECLINED
                  && Reports(order.paymentResult.value, o, end.charges[o]))
            && (order.status in {PENDING, FAILED} ==> o !in end.charges)
            && (o in end.charges ==> o in end.inventory.reserves)
  {
    ReachableInv(w, steps);
    assert OrderOk(o, ViewOf(Run(w, steps), o));
  }

  /** Charge once: a stored charge survives every continuation of the run unchanged. */
  lemma ChargedOnce(w: World, front: seq<Step>, back: seq<Step>, o: OrderId)
    requires Initial(w) && ValidRun(w, front) && ValidRun(Run(w, front), back) && o in Run(w, front).charges
    ensures var end := Run(Run(w, front), back);
            o in end.charges && end.charges[o] == Run(w, front).charges[o]
  {
    ReachableInv(w, front);
    var mid := Run(w, front);
    RunKeepsInv(mid, back);
    assert o in mid.orders && Evolves(ViewOf(mid, o), ViewOf(Run(mid, back), o));
  }

  /** What an actor that carries a payment result knows about its order's charge. */
  lemma CarriedResult(o: OrderId, v: View, pc: Pc)
    requires PcOk(o, v, pc)
    ensures pc.PaymentCas? ==> v.charge.Some? && Reports(pc.result, o, v.charge.value)
    ensures pc.SweepResolve? && pc.found.Some? ==> v.charge.Some? && Reports(pc.found.value, o, v.charge.value)
  {
  }

  /**
   * Whatever payment result any actor still carries, from its own insert, a replay,
   * a lost insert race or a sweeper's lookup, is that of the one stored charge.
   */
  lemma EveryResultIsTheCharge(w: World, steps: seq<Step>, a: ActorId)
    requires Initial(w) && ValidRun(w, steps) && a in Run(w, steps).actors
    ensures var end := Run(w, steps);
            var Actor(o, pc) := end.actors[a];
            && (pc.PaymentCas? ==> o in end.charges && Reports(pc.result, o, end.charges[o]))
            && (pc.SweepResolve? && pc.found.Some? ==> o in end.charges && Reports(pc.found.value, o, end.charges[o]))
  {
    ReachableInv(w, steps);
    var end := Run(w, steps);
    Known(end, a);
    if end.actors[a].order in end.orders {
      CarriedResult(end.actors[a].order, ViewOf(end, end.actors[a].order), end.actors[a].pc);
    }
  }

  /** The ledger explains every unit and no row is ever negative, at every step of every run. */
  lemma LedgerExplainsStock(w: World, steps: seq<Step>, key: StockKey)
    requires Initial(w) && ValidRun(w, steps)
    ensures var end := Run(w, steps);
            && 0 <= Level(end.inventory.stock, key)
            && Level(end.inventory.stock, key) ==
               Level(end.supplied, key) - Total(MovedAt(end.inventory.reserves, key))
                   + Total(MovedAt(end.inventory.releases, key))
  {
    ReachableInv(w, steps);
  }

  /** A status once left is never seen again, and a terminal one is final. */
  lemma StatusOnlyClimbs(w: World, front: seq<Step>, back: seq<Step>, o: OrderId)
    requires Initial(w) && ValidRun(w, front) && ValidRun(Run(w, front), back) && o in Run(w, front).orders
    ensures var mid := Run(w, front);
            var end := Run(mid, back);
            && o in end.orders
            && Reaches(mid.orders[o].status, end.orders[o].status)
            && (end.orders[o].status != mid.orders[o].status ==>
                Rank(mid.orders[o].status) < Rank(end.orders[o].status))
            && (IsTerminal(mid.orders[o].status) ==> end.orders[o].status == mid.orders[o].status)
  {
    ReachableInv(w, front);
    var mid := Run(w, front);
    RunKeepsInv(mid, back);
    assert Evolves(ViewOf(mid, o), ViewOf(Run(mid, back), o));
    LeavingRaisesRank(mid.orders[o].status, Run(mid, back).orders[o].status);
  }

  /** What was accepted is what is reserved and charged: an order keeps its items, its ranking and its total. */
  lemma AcceptedForGood(w: World, front: seq<Step>, accept: Step, back: seq<Step>)
    requires Initial(w) && ValidRun(w, front) && accept.AcceptOrder? && Enabled(Run(w, front), accept)
    requires ValidRun(Apply(Run(w, front), accept), back)
    ensures var o, end := accept.order, Run(Apply(Run(w, front), accept), back);
            && o in end.orders
            && end.orders[o].items == accept.items && end.orders[o].nearest == accept.nearest
            && end.orders[o].totalAmount == accept.totalAmount
            && (o in end.inventory.reserves ==> end.inventory.reserves[o].items == accept.items)
            && (o in end.charges ==> end.charges[o].amount == accept.totalAmount)
  {
    ReachableInv(w, front);
    var accepted := Apply(Run(w, front), accept);
    StepKeepsInv(Run(w, front), accept);
    RunKeepsInv(accepted, back);
    var end := Run(accepted, back);
    assert Evolves(ViewOf(accepted, accept.order), ViewOf(end, accept.order));
    assert OrderOk(accept.order, ViewOf(end, accept.order));
  }

  // ---------------------------------------------------------------- supply

  /** Units put on this shelf along a run. */
  function ToppedUp(steps: seq<Step>, key: StockKey): nat {
    if steps == [] then 0
    else (if steps[0].TopUp? && steps[0].key == key then steps[0].quantity else 0) + ToppedUp(steps[1..], key)
  }

  lemma ActSupplies(w: World, a: ActorId, c: Choice)
    requires a in w.actors
    ensures ActStep(w, a, c).supplied == w.supplied
  {
    var pc := w.actors[a].pc;
    if IsCas(pc) {
    } else if IsRelease(pc) {
    } else if IsInsert(pc) {
    } else if pc.Trying? {
    } else {
    }
  }

  /** What counts as supplied is what was there at first and every top-up since, unit by unit. */
  lemma {:induction false} SupplyIsTopUps(w: World, steps: seq<Step>, key: StockKey)
    requires ValidRun(w, steps)
    ensures Level(Run(w, steps).supplied, key) == Level(w.supplied, key) + ToppedUp(steps, key)
    decreases |steps|
  {
    if steps != [] {
      var s := steps[0];
      if s.Act? {
        ActSupplies(w, s.actor, s.choice);
      } else if s.TopUp? {
        AddExact(w.supplied, s.key, s.quantity, key);
      }
      SupplyIsTopUps(Apply(w, s), steps[1..], key);
    }
  }

  // ---------------------------------------------------------------- who says why

  /** Which failure code an actor writes with its transition. */
  predicate Blames(pc: Pc, code: FailureCode) {
    match code
    case OUT_OF_STOCK => pc == OutOfStockCas
    case RECONCILED_TIMEOUT => pc == SweepFailCas
    case RECONCILED_NO_CHARGE => pc == SweepResolve(None)
    case PAYMENT_DECLINED =>
      || pc == NoCustomerCas
      || (pc.PaymentCas? && !pc.result.success)
      || (pc.SweepResolve? && pc.found.Some? && !pc.found.value.success)
  }

  lemma CasBlames(pc: Pc, code: FailureCode)
    requires IsCas(pc)
    ensures CasOf(pc).patch.failureCode == Some(code) <==> Blames(pc, code)
    ensures CasOf(pc).patch.failureCode == None ==> !Blames(pc, code)
  {
    match pc
    case PaymentCas(result) =>
    case SweepResolve(found) =>
    case _ =>
  }

  function CodeOf(w: World, o: OrderId): Option<FailureCode> {
    if o in w.orders then w.orders[o].failureCode else None
  }

  /** The actor wins a transition of this order. */
  predicate Wins(w: World, o: OrderId, actor: Actor) {
    actor.order == o && IsCas(actor.pc) && Matches(w.orders, o, CasOf(actor.pc).from)
  }

  /**
   * A failure code appears exactly when the actor it stands for wins its
   * transition: the worker that found no stock, the sweeper that timed the order
   * out, the sweeper that found no charge, or whoever learnt that the payment was
   * declined or that there is no customer.
   */
  lemma FailureCodeNamesTheCause(w: World, s: Step, o: OrderId, code: FailureCode)
    requires Enabled(w, s) && CodeOf(w, o) != Some(code)
    ensures CodeOf(Apply(w, s), o) == Some(code)
            <==> s.Act? && Wins(w, o, w.actors[s.actor]) && Blames(w.actors[s.actor].pc, code)
  {
    if s.Act? {
      var Actor(p, pc) := w.actors[s.actor];
      ActOrders(w, s.actor, s.choice);
      if IsCas(pc) {
        CasBlames(pc, code);
      }
    }
  }

  /** The payment an actor has learnt about and is about to record. */
  function Learnt(pc: Pc): Option<PaymentResult> {
    match pc
    case PaymentCas(result) => Some(result)
    case SweepResolve(found) => found
    case _ => None
  }

  lemma CasRecords(pc: Pc)
    requires IsCas(pc)
    ensures CasOf(pc).patch.paymentResult == Learnt(pc)
    ensures CasOf(pc).patch.warehouseId == if pc.ReserveCas? then Some(pc.warehouse) else None
  {
    match pc
    case PaymentCas(result) =>
    case SweepResolve(found) =>
    case _ =>
  }

  /**
   * Who wins a transition records what it knows: the payment it has learnt about,
   * declined or not, and the warehouse of the reservation. Nobody else touches these.
   */
  lemma WinnersRecord(w: World, s: Step, o: OrderId)
    requires Enabled(w, s) && o in w.orders
    ensures o in Apply(w, s).orders
    ensures var before, after := w.orders[o], Apply(w, s).orders[o];
            if s.Act? && Wins(w, o, w.actors[s.actor]) then
              var pc := w.actors[s.actor].pc;
              && after.paymentResult == (if Learnt(pc).Some? then Learnt(pc) else before.paymentResult)
              && after.warehouseId == if pc.ReserveCas? then Some(pc.warehouse) else before.warehouseId
            else after.paymentResult == before.paymentResult && after.warehouseId == before.warehouseId
  {
    if s.Act? {
      ActOrders(w, s.actor, s.choice);
      if IsCas(w.actors[s.actor].pc) {
        CasRecords(w.actors[s.actor].pc);
      }
    }
  }
}
