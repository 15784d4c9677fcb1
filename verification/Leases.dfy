/**
 * The sweeper's lease (src/orders/orders.repository.ts:95-116) on a monotone
 * clock: it spaces claims although every transition clears it, and it never
 * locks an order away.
 */
module Leases {
  import opened Wrappers
  import opened OrderStatuses
  import opened StockLedger
  import opened Orders
  import opened SagaProtocol

  /** A stored lease is the one of the last claim; a cleared one means the order moved since. */
  predicate LeaseOk(doc: Order, lastClaim: Option<nat>, leaseMs: nat, now: nat) {
    && doc.updatedAt <= now
    && (lastClaim == None ==> doc.sweepLeaseUntil == None)
    && (lastClaim.Some? ==>
          && lastClaim.value <= now
          && (doc.sweepLeaseUntil == Some(lastClaim.value + leaseMs)
              || (doc.sweepLeaseUntil == None && lastClaim.value <= doc.updatedAt)))
  }

  ghost predicate LeasesOk(w: World) {
    && w.lastClaim.Keys <= w.orders.Keys
    && forall o :: o in w.orders ==> LeaseOk(w.orders[o], Lookup(w.lastClaim, o), w.config.leaseMs, w.clock)
  }

  /** The clock and the history of claims only move forward. */
  ghost predicate TimeMovesOn(w: World, w': World) {
    && w'.config == w.config && w.clock <= w'.clock
    && forall o :: o in w.lastClaim ==> o in w'.lastClaim && w.lastClaim[o] <= w'.lastClaim[o]
  }

  /** Only a compare-and-swap writes order documents. */
  lemma ActOrders(w: World, a: ActorId, c: Choice)
    requires a in w.actors
    ensures var Actor(o, pc), w' := w.actors[a], ActStep(w, a, c);
            && w'.clock == w.clock && w'.config == w.config && w'.lastClaim == w.lastClaim
            && w'.orders == if IsCas(pc) then Cas(w, o, CasOf(pc)).orders else w.orders
  {
    var pc := w.actors[a].pc;
    if IsCas(pc) {
    } else if IsRelease(pc) {
    } else if IsInsert(pc) {
    } else if pc.Trying? {
    } else {
    }
  }

  lemma ActKeepsLeases(w: World, a: ActorId, c: Choice)
    requires LeasesOk(w) && a in w.actors
    ensures LeasesOk(ActStep(w, a, c)) && TimeMovesOn(w, ActStep(w, a, c))
  {
    ActOrders(w, a, c);
    var w' := ActStep(w, a, c);
    forall o | o in w'.orders ensures LeaseOk(w'.orders[o], Lookup(w'.lastClaim, o), w'.config.leaseMs, w'.clock) {
      assert LeaseOk(w.orders[o], Lookup(w.lastClaim, o), w.config.leaseMs, w.clock);
    }
  }

  lemma StepKeepsLeases(w: World, s: Step)
    requires LeasesOk(w) && Enabled(w, s)
    ensures LeasesOk(Apply(w, s)) && TimeMovesOn(w, Apply(w, s))
  {
    if s.Act? {
      ActKeepsLeases(w, s.actor, s.choice);
    }
  }

  lemma {:induction false} RunKeepsLeases(w: World, steps: seq<Step>)
    requires LeasesOk(w) && ValidRun(w, steps)
    ensures LeasesOk(Run(w, steps)) && TimeMovesOn(w, Run(w, steps))
    decreases |steps|
  {
    if steps != [] {
      StepKeepsLeases(w, steps[0]);
      RunKeepsLeases(Apply(w, steps[0]), steps[1..]);
    }
  }

  function Min(a: nat, b: nat): nat {
    if a < b then a else b
  }

  /** In any run, two claims of one order are at least the shorter of lease and staleness bound apart. */
  lemma ClaimsAreSpaced(w: World, front: seq<Step>, o: OrderId, a: ActorId, s: OrderStatus,
                        between: seq<Step>, b: ActorId, t: OrderStatus)
    requires Initial(w) && ValidRun(w, front) && Enabled(Run(w, front), Claim(a, o, s))
    requires ValidRun(Apply(Run(w, front), Claim(a, o, s)), between)
    requires Enabled(Run(Apply(Run(w, front), Claim(a, o, s)), between), Claim(b, o, t))
    ensures var first := Run(w, front);
            var second := Run(Apply(first, Claim(a, o, s)), between);
            second.clock - first.clock >= Min(w.config.leaseMs, w.config.staleAfterMs)
  {
    RunKeepsLeases(w, front);
    var first := Run(w, front);
    StepKeepsLeases(first, Claim(a, o, s));
    SpacedFrom(first, Apply(first, Claim(a, o, s)), o, between, b, t);
  }

  lemma SpacedFrom(first: World, claimed: World, o: OrderId, between: seq<Step>, b: ActorId, t: OrderStatus)
    requires LeasesOk(claimed) && claimed.config == first.config
    requires o in claimed.lastClaim && claimed.lastClaim[o] == first.clock
    requires ValidRun(claimed, between) && Enabled(Run(claimed, between), Claim(b, o, t))
    ensures Run(claimed, between).clock - first.clock >= Min(first.config.leaseMs, first.config.staleAfterMs)
  {
    RunKeepsLeases(claimed, between);
    var second := Run(claimed, between);
    assert LeaseOk(second.orders[o], Lookup(second.lastClaim, o), second.config.leaseMs, second.clock);
  }

  /** From when on an order can be claimed again if nothing happens to it. */
  function EligibleFrom(w: World, o: OrderId): nat
    requires o in w.orders
  {
    var stale := w.orders[o].updatedAt + w.config.staleAfterMs;
    if o in w.lastClaim && stale < w.lastClaim[o] + w.config.leaseMs then w.lastClaim[o] + w.config.leaseMs else stale
  }

  /** Some claimable order is the oldest one. */
  lemma {:induction false} OldestExists(orders: Orders, among: set<OrderId>, o: OrderId, status: OrderStatus,
                                        staleAfterMs: nat, now: nat)
    returns (oldest: OrderId)
    requires o in among && Claimable(orders, o, status, staleAfterMs, now)
    ensures oldest in among && Claimable(orders, oldest, status, staleAfterMs, now)
    ensures forall p :: p in among && Claimable(orders, p, status, staleAfterMs, now) ==>
              orders[oldest].updatedAt <= orders[p].updatedAt
    decreases among
  {
    oldest := o;
    if p :| p in among && Claimable(orders, p, status, staleAfterMs, now) && orders[p].updatedAt < orders[o].updatedAt {
      oldest := OldestExists(orders, among - {o}, p, status, staleAfterMs, now);
    }
  }

  /**
   * No live order is locked away: in every reachable state, once the clock has
   * passed the bound it is claimable, and then some claim of its status succeeds.
   */
  lemma NeverUnclaimable(w: World, steps: seq<Step>, o: OrderId, ms: nat, a: ActorId) returns (oldest: OrderId)
    requires Initial(w) && ValidRun(w, steps)
    requires var end := Run(w, steps);
             && o in end.orders && !IsTerminal(end.orders[o].status) && a !in end.actors
             && end.clock + ms >= EligibleFrom(end, o)
    ensures var later := Apply(Run(w, steps), Wait(ms));
            && Claimable(later.orders, o, later.orders[o].status, w.config.staleAfterMs, later.clock)
            && Enabled(later, Claim(a, oldest, later.orders[o].status))
  {
    RunKeepsLeases(w, steps);
    var end := Run(w, steps);
    assert LeaseOk(end.orders[o], Lookup(end.lastClaim, o), end.config.leaseMs, end.clock);
    var status := end.orders[o].status;
    oldest := OldestExists(end.orders, end.orders.Keys, o, status, end.config.staleAfterMs, end.clock + ms);
  }

  // ---------------------------------------------------------------- what the fields of a claim mean

  /**
   * Whatever a step does to an order: nothing, a claim, which counts and sets the
   * lease but moves neither status nor timestamp, or a transition, which frees the
   * lease, stamps the order and leaves the count alone.
   */
  lemma LeaseFields(w: World, s: Step, o: OrderId)
    requires Enabled(w, s) && o in w.orders
    ensures var before, after := w.orders[o], Apply(w, s).orders[o];
            || after == before
            || (s.Claim? && s.order == o && after.status == before.status && after.updatedAt == before.updatedAt
                && after.sweepLeaseUntil == Some(w.clock + w.config.leaseMs)
                && after.sweepAttempts == before.sweepAttempts + 1)
            || (s.Act? && after.status != before.status && after.updatedAt == w.clock
                && after.sweepLeaseUntil == None && after.sweepAttempts == before.sweepAttempts)
    ensures s.Claim? && s.order == o ==> Apply(w, s).orders[o].sweepAttempts == w.orders[o].sweepAttempts + 1
  {
    if s.Act? {
      ActOrders(w, s.actor, s.choice);
      CasMoves(w.actors[s.actor].pc);
    }
  }

  lemma CasMoves(pc: Pc)
    ensures IsCas(pc) ==> CasOf(pc).to != CasOf(pc).from
  {
  }

  function ClaimsOf(steps: seq<Step>, o: OrderId): nat {
    if steps == [] then 0
    else (if steps[0].Claim? && steps[0].order == o then 1 else 0) + ClaimsOf(steps[1..], o)
  }

  function SweepAttempts(w: World, o: OrderId): nat {
    if o in w.orders then w.orders[o].sweepAttempts else 0
  }

  lemma StepCounts(w: World, s: Step, o: OrderId)
    requires Enabled(w, s)
    ensures SweepAttempts(Apply(w, s), o) == SweepAttempts(w, o) + if s.Claim? && s.order == o then 1 else 0
  {
    if o in w.orders {
      LeaseFields(w, s, o);
    }
    if s.Act? {
      ActOrders(w, s.actor, s.choice);
    }
  }

  /** An order's attempts are the claims of it. */
  lemma {:induction false} AttemptsAreClaims(w: World, steps: seq<Step>, o: OrderId)
    requires ValidRun(w, steps)
    ensures SweepAttempts(Run(w, steps), o) == SweepAttempts(w, o) + ClaimsOf(steps, o)
    decreases |steps|
  {
    if steps != [] {
      StepCounts(w, steps[0], o);
      AttemptsAreClaims(Apply(w, steps[0]), steps[1..], o);
    }
  }

  /** Timestamps only move forward. */
  lemma {:induction false} UpdatesMoveOn(w: World, steps: seq<Step>, o: OrderId)
    requires LeasesOk(w) && ValidRun(w, steps) && o in w.orders
    ensures o in Run(w, steps).orders && w.orders[o].updatedAt <= Run(w, steps).orders[o].updatedAt
    decreases |steps|
  {
    if steps != [] {
      StepKeepsLeases(w, steps[0]);
      LeaseFields(w, steps[0], o);
      if steps[0].Act? {
        ActOrders(w, steps[0].actor, steps[0].choice);
      }
      UpdatesMoveOn(Apply(w, steps[0]), steps[1..], o);
    }
  }

  /** In any run: no order is claimed within the staleness bound of its acceptance. */
  lemma FreshOrdersAreLeftAlone(w: World, front: seq<Step>, accept: Step, between: seq<Step>, a: ActorId,
                                status: OrderStatus)
    requires Initial(w) && ValidRun(w, front) && accept.AcceptOrder? && Enabled(Run(w, front), accept)
    requires ValidRun(Apply(Run(w, front), accept), between)
    requires Enabled(Run(Apply(Run(w, front), accept), between), Claim(a, accept.order, status))
    ensures Run(Apply(Run(w, front), accept), between).clock - Run(w, front).clock >= w.config.staleAfterMs
  {
    RunKeepsLeases(w, front);
    var mid := Run(w, front);
    StepKeepsLeases(mid, accept);
    RunKeepsLeases(Apply(mid, accept), between);
    UpdatesMoveOn(Apply(mid, accept), between, accept.order);
  }
}
