/**
 * How long a delivery can take (src/orders/order-saga.processor.ts:46-86).
 *
 * Whether its compare-and-swap won or lost, the status of the order differs
 * afterwards from the one the delivery read, and ranks only rise. So whatever
 * others do, one delivery reads its order at most four times and attempts at
 * most three transitions.
 */
module Deliveries {
  import opened Wrappers
  import opened OrderStatuses
  import opened StockLedger
  import opened Charges
  import opened Orders
  import opened SagaProtocol
  import opened SagaInvariant
  import opened Histories

  /** The last thing that happened is a read at the head of the actor's loop. */
  predicate IsLookOf(h: History, a: ActorId) {
    JustActed(h, a) && h.before.state.actors[a].pc == Reading
  }

  /** The last thing that happened is a transition the actor attempted. */
  predicate IsAttemptOf(h: History, a: ActorId) {
    JustActed(h, a) && IsCas(h.before.state.actors[a].pc)
  }

  /** Reads of its order an actor made between two moments. */
  ghost function Looks(p: History, h: History, a: ActorId): nat
    decreases h
  {
    if p == h || h.Start? then 0 else Looks(p, h.before, a) + if IsLookOf(h, a) then 1 else 0
  }

  /** Transitions an actor attempted between two moments. */
  ghost function Attempts(p: History, h: History, a: ActorId): nat
    decreases h
  {
    if p == h || h.Start? then 0 else Attempts(p, h.before, a) + if IsAttemptOf(h, a) then 1 else 0
  }

  /** The rank of the status a delivery at this point has read. */
  function RankRead(pc: Pc): nat {
    match pc
    case PriorLookup(_) => 0
    case Ranking(_) => 0
    case Trying(_, _) => 0
    case WinnerLookup => 0
    case ReserveCas(_) => 0
    case OutOfStockCas => 0
    case CustomerLookup(_) => 1
    case NoCustomerCas => 1
    case PspFind(_) => 1
    case PspInsert(_) => 1
    case PspWinner => 1
    case PaymentCas(_) => 1
    case CompleteCas => 2
    case CompensationRelease => 2
    case CompensatedCas => 2
    case _ => 3
  }

  /** Reads a delivery may still make, given the rank of its order by now. */
  function LooksLeft(pc: Pc, rank: nat): int {
    if pc == Reading then 4 - rank else 3 - RankRead(pc)
  }

  function AttemptsLeft(pc: Pc, rank: nat): int {
    if pc == Reading then 3 - rank else 3 - RankRead(pc)
  }

  function RankOf(w: World, o: OrderId): nat {
    if o in w.orders then Rank(w.orders[o].status) else 0
  }

  function LooksLeftOf(w: World, a: ActorId): int {
    if a in w.actors then LooksLeft(w.actors[a].pc, RankOf(w, w.actors[a].order)) else 0
  }

  function AttemptsLeftOf(w: World, a: ActorId): int {
    if a in w.actors then AttemptsLeft(w.actors[a].pc, RankOf(w, w.actors[a].order)) else 0
  }

  // ---------------------------------------------------------------- one step

  lemma AttemptShortens(o: OrderId, v: View, pc: Pc, c: Choice, now: nat, fits: bool)
    requires OrderOk(o, v) && PcOk(o, v, pc) && IsDelivery(pc) && IsCas(pc)
    ensures var Local(v', next) := LocalStep(o, v, pc, c, now, fits);
            next.Some? ==>
              && LooksLeft(next.value, Rank(v'.order.status)) <= LooksLeft(pc, Rank(v.order.status))
              && AttemptsLeft(next.value, Rank(v'.order.status)) + 1 <= AttemptsLeft(pc, Rank(v.order.status))
    ensures 0 <= LooksLeft(pc, Rank(v.order.status)) && 1 <= AttemptsLeft(pc, Rank(v.order.status))
  {
    CasBelief(o, v, pc);
  }

  lemma LookShortens(o: OrderId, v: View, pc: Pc, c: Choice, now: nat, fits: bool)
    requires IsDelivery(pc) && pc != Redelivery && IsLook(pc)
    ensures var Local(v', next) := LocalStep(o, v, pc, c, now, fits);
            && v' == v
            && (if next.Some? then LooksLeft(next.value, Rank(v.order.status)) else 0)
               + (if pc == Reading then 1 else 0) <= LooksLeft(pc, Rank(v.order.status))
            && (if next.Some? then AttemptsLeft(next.value, Rank(v.order.status)) else 0)
               <= AttemptsLeft(pc, Rank(v.order.status))
  {
  }

  /** An operation of the delivery itself uses up what it is counted as. */
  lemma LocalShortens(o: OrderId, v: View, pc: Pc, c: Choice, now: nat, fits: bool)
    requires OrderOk(o, v) && PcOk(o, v, pc) && IsDelivery(pc) && pc != Redelivery
    ensures var Local(v', next) := LocalStep(o, v, pc, c, now, fits);
            var rank, rank' := Rank(v.order.status), Rank(v'.order.status);
            && (if next.Some? then LooksLeft(next.value, rank') else 0)
               + (if pc == Reading then 1 else 0) <= LooksLeft(pc, rank)
            && (if next.Some? then AttemptsLeft(next.value, rank') else 0)
               + (if IsCas(pc) then 1 else 0) <= AttemptsLeft(pc, rank)
  {
    if IsCas(pc) {
      AttemptShortens(o, v, pc, c, now, fits);
    } else if IsLook(pc) {
      LookShortens(o, v, pc, c, now, fits);
    }
  }

  /** A delivery stays one as long as it lives. */
  lemma LocalStaysDelivery(o: OrderId, v: View, pc: Pc, c: Choice, now: nat, fits: bool)
    requires IsDelivery(pc)
    ensures var next := LocalStep(o, v, pc, c, now, fits).next; next.Some? ==> IsDelivery(next.value)
  {
    if IsCas(pc) {
    } else if IsLook(pc) {
    }
  }

  /** A job for an order that does not exist is dropped at once. */
  lemma MissingOrderShortens(w: World, a: ActorId, c: Choice)
    requires a in w.actors && w.actors[a].pc == Reading && w.actors[a].order !in w.orders
    ensures a !in ActStep(w, a, c).actors
  {
  }

  lemma KnownOrderShortens(w: World, w': World, a: ActorId, c: Choice, fits: bool)
    requires a in w.actors && w.actors[a].order in w.orders
    requires var Actor(o, pc) := w.actors[a];
             && IsDelivery(pc) && pc != Redelivery && OrderOk(o, ViewOf(w, o)) && PcOk(o, ViewOf(w, o), pc)
             && TouchesOnly(w, w', a, LocalStep(o, ViewOf(w, o), pc, c, w.clock, fits))
    ensures var pc := w.actors[a].pc;
            && LooksLeftOf(w', a) + (if pc == Reading then 1 else 0) <= LooksLeftOf(w, a)
            && AttemptsLeftOf(w', a) + (if IsCas(pc) then 1 else 0) <= AttemptsLeftOf(w, a)
    ensures a in w'.actors ==> IsDelivery(w'.actors[a].pc)
  {
    var Actor(o, pc) := w.actors[a];
    LocalStaysDelivery(o, ViewOf(w, o), pc, c, w.clock, fits);
    LocalShortens(o, ViewOf(w, o), pc, c, w.clock, fits);
  }

  lemma OwnStepShortens(w: World, a: ActorId, c: Choice)
    requires Inv(w) && a in w.actors && IsDelivery(w.actors[a].pc) && w.actors[a].pc != Redelivery
    ensures var w', pc := ActStep(w, a, c), w.actors[a].pc;
            && LooksLeftOf(w', a) + (if pc == Reading then 1 else 0) <= LooksLeftOf(w, a)
            && AttemptsLeftOf(w', a) + (if IsCas(pc) then 1 else 0) <= AttemptsLeftOf(w, a)
            && (a in w'.actors ==> IsDelivery(w'.actors[a].pc))
  {
    var Actor(o, pc) := w.actors[a];
    assert ActorOk(w, w.actors[a]);
    if o in w.orders {
      Known(w, a);
      var fits := ActTouchesOnly(w, a, c);
      KnownOrderShortens(w, ActStep(w, a, c), a, c, fits);
    } else {
      MissingOrderShortens(w, a, c);
    }
  }

  /** Whatever others do, or the crash of the worker itself, never adds to what is left. */
  lemma OtherStepShortens(w: World, s: Step, a: ActorId)
    requires Inv(w) && Enabled(w, s) && NotBy(s, a) && a in w.actors && IsDelivery(w.actors[a].pc)
    ensures var w' := Apply(w, s);
            && a in w'.actors && IsDelivery(w'.actors[a].pc)
            && LooksLeftOf(w', a) <= LooksLeftOf(w, a) && AttemptsLeftOf(w', a) <= AttemptsLeftOf(w, a)
  {
    var o := w.actors[a].order;
    NotByKeepsActor(w, s, a);
    if o in w.orders {
      StepKeepsInv(w, s);
      EvolvingClimbs(w, Apply(w, s));
      RankClimbs(w.orders[o].status, Apply(w, s).orders[o].status);
    }
  }

  lemma CrashShortens(w: World, s: Step, a: ActorId)
    requires Enabled(w, s) && s.Crash? && s.actor == a
    ensures var w' := Apply(w, s);
            a in w'.actors && w'.actors[a].pc == Redelivery && LooksLeftOf(w', a) == AttemptsLeftOf(w', a) == 0
  {
  }

  lemma NothingBelowZero(w: World, a: ActorId)
    ensures 0 <= LooksLeftOf(w, a) && 0 <= AttemptsLeftOf(w, a)
  {
  }

  lemma StepShortens(h: History, a: ActorId)
    requires IsRun(h) && h.Then? && Proper(h.before.state, h.step, a) && IsDelivery(h.before.state.actors[a].pc)
    ensures LooksLeftOf(h.state, a) + (if IsLookOf(h, a) then 1 else 0) <= LooksLeftOf(h.before.state, a)
    ensures AttemptsLeftOf(h.state, a) + (if IsAttemptOf(h, a) then 1 else 0) <= AttemptsLeftOf(h.before.state, a)
    ensures a in h.state.actors ==> IsDelivery(h.state.actors[a].pc)
  {
    var w, s := h.before.state, h.step;
    BeforeIsRun(h);
    HistoryKeepsInv(h.before);
    if NotBy(s, a) {
      OtherStepShortens(w, s, a);
    } else if s.Crash? {
      CrashShortens(w, s, a);
      NothingBelowZero(w, a);
    } else {
      OwnStepShortens(w, a, s.choice);
    }
  }

  // ---------------------------------------------------------------- one delivery

  lemma {:induction false} WhatIsLeft(p: History, h: History, a: ActorId)
    requires IsRun(h) && Onward(p, h, a) && a in p.state.actors && IsDelivery(p.state.actors[a].pc)
    ensures Looks(p, h, a) + LooksLeftOf(h.state, a) <= LooksLeftOf(p.state, a)
    ensures Attempts(p, h, a) + AttemptsLeftOf(h.state, a) <= AttemptsLeftOf(p.state, a)
    ensures a in h.state.actors ==> IsDelivery(h.state.actors[a].pc)
    decreases h
  {
    if p != h {
      BeforeIsRun(h);
      WhatIsLeft(p, h.before, a);
      StepShortens(h, a);
    }
  }

  /** Between two moments of the life of a delivery that stood at the head of its loop. */
  lemma DeliveryIsShort(p: History, h: History, a: ActorId)
    requires IsRun(h) && Onward(p, h, a) && a in p.state.actors && p.state.actors[a].pc == Reading
    ensures Looks(p, h, a) <= 4 - RankOf(p.state, p.state.actors[a].order)
    ensures Attempts(p, h, a) <= 3 - RankOf(p.state, p.state.actors[a].order)
  {
    WhatIsLeft(p, h, a);
    NothingBelowZero(h.state, a);
  }
}
