/**
 * When held stock is lost (src/orders/order-reconciliation.service.ts:113-131).
 *
 * An order that owes a release need not have a delivery: while it is PENDING a
 * sweeper can still fail it and return the stock, and a sweeper that failed it
 * returns the stock before it goes. FAILED is never swept, so a FAILED order
 * that owes a release depends on the actors it has. When the last of them goes,
 * the order is doomed: only a further delivery of its job could help.
 */
module Stranding {
  import opened Wrappers
  import opened OrderStatuses
  import opened StockLedger
  import opened Charges
  import opened Orders
  import opened SagaProtocol
  import opened SagaInvariant
  import opened Obligations
  import Leases

  /** A delivery, or a sweeper that has failed the order and not yet released its stock. */
  predicate IsRescuer(pc: Pc) {
    IsDelivery(pc) || pc == SweepFailRelease
  }

  ghost predicate Rescues(w: World, a: ActorId, o: OrderId) {
    a in w.actors && w.actors[a].order == o && IsRescuer(w.actors[a].pc)
  }

  /** The order failed, holds stock, and nobody is left who would return it. */
  ghost predicate Doomed(w: World, o: OrderId) {
    Owed(w, o) && w.orders[o].status == FAILED && forall a :: !Rescues(w, a, o)
  }

  ghost predicate NoneDoomed(w: World) {
    forall o :: !Doomed(w, o)
  }

  /** The queue drops, or death takes, the last one who would have returned the stock of a FAILED order. */
  ghost predicate Dooms(w: World, s: Step) {
    && (s.GiveUp? || s.SweeperStops?) && s.actor in w.actors
    && var o := w.actors[s.actor].order;
       && Rescues(w, s.actor, o) && Owed(w, o) && w.orders[o].status == FAILED
       && forall b :: Rescues(w, b, o) ==> b == s.actor
  }

  // ---------------------------------------------------------------- one step

  predicate OwesAndFailed(v: View) {
    Owes(v) && v.order.status == FAILED
  }

  /** Whoever makes an order owe, or fails one that owes, stays responsible for it. */
  lemma LocalRescue(o: OrderId, v: View, pc: Pc, c: Choice, now: nat, fits: bool)
    requires OrderOk(o, v) && PcOk(o, v, pc)
    ensures var Local(v', next) := LocalStep(o, v, pc, c, now, fits);
            OwesAndFailed(v') ==>
              (next.Some? && IsRescuer(next.value))
                  || (v' == v && !IsRescuer(pc) && (next.Some? ==> !IsRescuer(next.value)))
  {
    if IsCas(pc) {
      CasBelief(o, v, pc);
    }
  }

  /** Nobody but a rescuer changes a FAILED order that owes, or becomes a rescuer of it. */
  lemma LocalDoom(o: OrderId, v: View, pc: Pc, c: Choice, now: nat, fits: bool)
    requires OrderOk(o, v) && PcOk(o, v, pc) && OwesAndFailed(v) && !IsRescuer(pc)
    ensures var Local(v', next) := LocalStep(o, v, pc, c, now, fits);
            v' == v && (next.Some? ==> !IsRescuer(next.value))
  {
    if IsCas(pc) {
      CasBelief(o, v, pc);
    }
  }

  lemma OwnStepRescues(w: World, a: ActorId, c: Choice)
    requires Inv(w) && a in w.actors && Doomed(ActStep(w, a, c), w.actors[a].order)
    ensures Owed(w, w.actors[a].order) && w.orders[w.actors[a].order].status == FAILED && !IsRescuer(w.actors[a].pc)
  {
    var w' := ActStep(w, a, c);
    var Actor(o, pc) := w.actors[a];
    ActLeavesOthers(w, a, c);
    Known(w, a);
    var fits := ActTouchesOnly(w, a, c);
    LocalRescue(o, ViewOf(w, o), pc, c, w.clock, fits);
    assert !Rescues(w', a, o);
  }

  lemma ActKeepsNoneDoomed(w: World, a: ActorId, c: Choice)
    requires Inv(w) && NoneDoomed(w) && a in w.actors
    ensures NoneDoomed(ActStep(w, a, c))
  {
    var w' := ActStep(w, a, c);
    ActLeavesOthers(w, a, c);
    forall o ensures !Doomed(w', o) {
      if Doomed(w', o) {
        if o == w.actors[a].order {
          OwnStepRescues(w, a, c);
        } else {
          assert ViewOf(w', o) == ViewOf(w, o);
        }
        assert !Doomed(w, o);
        var b :| Rescues(w, b, o);
        assert Rescues(w', b, o);
      }
    }
  }

  lemma LeavingDooms(w: World, s: Step)
    requires NoneDoomed(w) && Enabled(w, s) && (s.GiveUp? || s.SweeperStops?)
    ensures NoneDoomed(Apply(w, s)) <==> !Dooms(w, s)
  {
    var w', o := Apply(w, s), w.actors[s.actor].order;
    if Dooms(w, s) {
      forall b ensures !Rescues(w', b, o) {
        assert Rescues(w', b, o) ==> Rescues(w, b, o);
      }
      assert Doomed(w', o);
    } else {
      forall p ensures !Doomed(w', p) {
        if Doomed(w', p) {
          assert Owed(w, p) && !Doomed(w, p);
          var b :| Rescues(w, b, p) && (p == o ==> b != s.actor);
          assert Rescues(w', b, p);
        }
      }
    }
  }

  /** Steps that fail no order, write no movement and take nobody away. */
  lemma ArrivalKeepsNoneDoomed(w: World, s: Step)
    requires Inv(w) && NoneDoomed(w) && Enabled(w, s) && !s.Act? && !s.GiveUp? && !s.SweeperStops?
    ensures NoneDoomed(Apply(w, s))
  {
    var w' := Apply(w, s);
    forall o ensures !Doomed(w', o) {
      if Doomed(w', o) {
        OtherStepDuties(w, s);
        assert Owed(w, o) && w.orders[o].status == FAILED && !Doomed(w, o);
        var b :| Rescues(w, b, o);
        RescuerStays(w, s, b, o);
      }
    }
  }

  lemma RescuerStays(w: World, s: Step, b: ActorId, o: OrderId)
    requires Enabled(w, s) && !s.Act? && !s.GiveUp? && !s.SweeperStops? && Rescues(w, b, o)
    ensures Rescues(Apply(w, s), b, o)
  {
  }

  /** A step dooms an order if and only if it takes away the last one who would have returned its stock. */
  lemma StepDoomsIff(w: World, s: Step)
    requires Inv(w) && Enabled(w, s) && NoneDoomed(w)
    ensures NoneDoomed(Apply(w, s)) <==> !Dooms(w, s)
  {
    if s.Act? {
      ActKeepsNoneDoomed(w, s.actor, s.choice);
    } else if s.GiveUp? || s.SweeperStops? {
      LeavingDooms(w, s);
    } else {
      ArrivalKeepsNoneDoomed(w, s);
    }
  }

  // ---------------------------------------------------------------- whole runs

  ghost predicate NeverDooms(w: World, steps: seq<Step>)
    requires ValidRun(w, steps)
    decreases |steps|
  {
    steps == [] || (!Dooms(w, steps[0]) && NeverDooms(Apply(w, steps[0]), steps[1..]))
  }

  ghost predicate NoneDoomedThroughout(w: World, steps: seq<Step>)
    requires ValidRun(w, steps)
    decreases |steps|
  {
    NoneDoomed(w) && (steps == [] || NoneDoomedThroughout(Apply(w, steps[0]), steps[1..]))
  }

  /** Over whole runs: no order is ever doomed if and only if no step takes away a last rescuer. */
  lemma {:induction false} NoneDoomedIff(w: World, steps: seq<Step>)
    requires Inv(w) && NoneDoomed(w) && ValidRun(w, steps)
    ensures NoneDoomedThroughout(w, steps) <==> NeverDooms(w, steps)
    decreases |steps|
  {
    if steps != [] {
      StepDoomsIff(w, steps[0]);
      StepKeepsInv(w, steps[0]);
      if !Dooms(w, steps[0]) {
        NoneDoomedIff(Apply(w, steps[0]), steps[1..]);
      } else {
        DoomedAtOnce(Apply(w, steps[0]), steps[1..]);
      }
    }
  }

  lemma DoomedAtOnce(w: World, steps: seq<Step>)
    requires ValidRun(w, steps) && !NoneDoomed(w)
    ensures !NoneDoomedThroughout(w, steps)
  {
  }

  lemma {:induction false} NoneDoomedAtEnd(w: World, steps: seq<Step>)
    requires ValidRun(w, steps) && NoneDoomedThroughout(w, steps)
    ensures NoneDoomed(Run(w, steps))
    decreases |steps|
  {
    if steps != [] {
      NoneDoomedAtEnd(Apply(w, steps[0]), steps[1..]);
    }
  }

  /** Hypothesis R is enough: with a delivery for every order that owes, no sweeper is ever the last rescuer. */
  lemma {:induction false} RedeliveryNeverDooms(w: World, steps: seq<Step>)
    requires Inv(w) && ObligationsMet(w) && ValidRun(w, steps) && QueueNeverGivesUp(steps)
    ensures NeverDooms(w, steps)
    decreases |steps|
  {
    if steps != [] {
      var s := steps[0];
      if Dooms(w, s) {
        var b :| Delivers(w, b, w.actors[s.actor].order);
        assert Rescues(w, b, w.actors[s.actor].order);
      }
      StepKeepsObligations(w, s);
      StepKeepsInv(w, s);
      forall i | 0 <= i < |steps[1..]| ensures !steps[1..][i].GiveUp? {
        assert steps[1..][i] == steps[i + 1];
      }
      RedeliveryNeverDooms(Apply(w, s), steps[1..]);
    }
  }

  // ---------------------------------------------------------------- doomed means lost

  ghost predicate NoNewDelivery(steps: seq<Step>, o: OrderId) {
    forall s :: s in steps && s.Deliver? ==> s.order != o
  }

  lemma ActKeepsDoomed(w: World, a: ActorId, c: Choice, o: OrderId)
    requires Inv(w) && Doomed(w, o) && a in w.actors
    ensures Doomed(ActStep(w, a, c), o)
  {
    var w', pc := ActStep(w, a, c), w.actors[a].pc;
    ActLeavesOthers(w, a, c);
    assert !Rescues(w, a, o);
    if w.actors[a].order == o {
      Known(w, a);
      var fits := ActTouchesOnly(w, a, c);
      LocalDoom(o, ViewOf(w, o), pc, c, w.clock, fits);
    }
    assert ViewOf(w', o) == ViewOf(w, o);
    forall b ensures !Rescues(w', b, o) {
      assert b != a ==> (Rescues(w', b, o) ==> Rescues(w, b, o));
    }
  }

  lemma NoNewRescuer(w: World, s: Step, b: ActorId, o: OrderId)
    requires Doomed(w, o) && Enabled(w, s) && !s.Act? && (s.Deliver? ==> s.order != o)
    ensures !Rescues(Apply(w, s), b, o)
  {
    assert !Rescues(w, b, o);
    if s.Crash? {
      assert !Rescues(w, s.actor, o);
    }
  }

  lemma StillOwed(w: World, s: Step, o: OrderId)
    requires Owed(w, o) && w.orders[o].status == FAILED && Enabled(w, s) && !s.Act?
    ensures Owed(Apply(w, s), o) && Apply(w, s).orders[o].status == FAILED
  {
  }

  lemma OtherKeepsDoomed(w: World, s: Step, o: OrderId)
    requires Inv(w) && Doomed(w, o) && Enabled(w, s) && !s.Act? && (s.Deliver? ==> s.order != o)
    ensures Doomed(Apply(w, s), o)
  {
    StillOwed(w, s, o);
    forall b ensures !Rescues(Apply(w, s), b, o) {
      NoNewRescuer(w, s, b, o);
    }
  }

  /** Short of a further delivery of its job, nothing that happens ever helps a doomed order. */
  lemma {:induction false} DoomedForGood(w: World, steps: seq<Step>, o: OrderId)
    requires Inv(w) && Doomed(w, o) && ValidRun(w, steps) && NoNewDelivery(steps, o)
    ensures Doomed(Run(w, steps), o)
    decreases |steps|
  {
    if steps != [] {
      var s := steps[0];
      StepKeepsInv(w, s);
      if s.Act? {
        ActKeepsDoomed(w, s.actor, s.choice, o);
      } else {
        OtherKeepsDoomed(w, s, o);
      }
      DoomedForGood(Apply(w, s), steps[1..], o);
    }
  }

  // ---------------------------------------------------------------- not doomed means not lost

  /** Without a further delivery of its job, the order can still come to owe nothing. */
  ghost predicate Rescuable(w: World, o: OrderId) {
    exists steps: seq<Step> :: ValidRun(w, steps) && NoNewDelivery(steps, o) && !Owed(Run(w, steps), o)
  }

  lemma RescuableLater(w: World, s: Step, o: OrderId)
    requires Enabled(w, s) && (s.Deliver? ==> s.order != o) && Rescuable(Apply(w, s), o)
    ensures Rescuable(w, o)
  {
    var w' := Apply(w, s);
    var rest :| ValidRun(w', rest) && NoNewDelivery(rest, o) && !Owed(Run(w', rest), o);
    PrependRun(w, s, rest);
    assert NoNewDelivery([s] + rest, o);
  }

  lemma RescuableNow(w: World, o: OrderId)
    requires !Owed(w, o)
    ensures Rescuable(w, o)
  {
    assert ValidRun(w, []) && Run(w, []) == w && NoNewDelivery([], o);
  }

  /** A live delivery of a FAILED order returns the stock. */
  lemma DeliveryRescues(w: World, a: ActorId, o: OrderId)
    requires Inv(w) && Owed(w, o) && w.orders[o].status == FAILED && Delivers(w, a, o)
    ensures Rescuable(w, o)
  {
    var choices := (k: nat) => Choice(map[], true, false, 0);
    var states := RemainingPathReleases(w, a, o, choices, 0);
    var steps := AloneIsARun(states, a, choices, 0);
    assert NoNewDelivery(steps, o);
  }

  /** A sweeper that failed the order returns the stock with its next operation. */
  lemma SweeperRescues(w: World, a: ActorId, o: OrderId)
    requires a in w.actors && w.actors[a] == Actor(o, SweepFailRelease) && o in w.orders
    ensures Rescuable(w, o)
  {
    var s := Act(a, Choice(map[], true, false, 0));
    RescuableNow(Apply(w, s), o);
    RescuableLater(w, s, o);
  }

  /** What a sweeper that is not disturbed makes of a PENDING order. */
  function SweptPending(w: World, a: ActorId, p: OrderId): World
    requires a !in w.actors && p in w.orders && w.orders[p].status == PENDING
  {
    var c := Choice(map[], true, false, 0);
    ActStep(ActStep(ClaimStep(w, a, p), a, c), a, c)
  }

  lemma SweptPendingSteps(w: World, a: ActorId, p: OrderId, o: OrderId)
    requires Enabled(w, Claim(a, p, PENDING)) && Rescuable(SweptPending(w, a, p), o)
    ensures Rescuable(w, o)
  {
    var act := Act(a, Choice(map[], true, false, 0));
    var claimed := Apply(w, Claim(a, p, PENDING));
    RescuableLater(Apply(claimed, act), act, o);
    RescuableLater(claimed, act, o);
    RescuableLater(w, Claim(a, p, PENDING), o);
  }

  lemma SweptPendingLooks(w: World, a: ActorId, p: OrderId)
    requires a !in w.actors && p in w.orders && w.orders[p].status == PENDING
    ensures var w' := SweptPending(w, a, p);
            && w'.actors == w.actors && w'.clock == w.clock && w'.config == w.config
            && w'.inventory == ReleaseTx(w.inventory, p)
            && w'.orders.Keys == w.orders.Keys && w'.orders[p].status == FAILED
            && forall o :: o in w.orders && o != p ==> w'.orders[o] == w.orders[o]
  {
    var claimed := ClaimStep(w, a, p);
    assert claimed.actors[a] == Actor(p, SweepFailCas) && Matches(claimed.orders, p, PENDING);
    var failed := CasStep(claimed, a);
    assert failed.actors[a] == Actor(p, SweepFailRelease);
    assert ReleaseStep(failed, a).actors == w.actors;
  }

  function Pending(w: World): set<OrderId> {
    set o | o in w.orders && w.orders[o].status == PENDING
  }

  lemma {:induction false} FreshActorExists(actors: set<ActorId>) returns (a: ActorId)
    ensures a !in actors && forall b :: b in actors ==> b < a
  {
    if actors == {} {
      a := 0;
    } else {
      var b :| b in actors;
      var rest := actors - {b};
      a := FreshActorExists(rest);
      a := if b < a then a else b + 1;
      assert forall c :: c in actors ==> c == b || c in rest;
    }
  }

  /** Sweepers get to a stale PENDING order in the end, whatever is older. */
  lemma {:induction false} SweepersGetThere(w: World, o: OrderId)
    requires Claimable(w.orders, o, PENDING, w.config.staleAfterMs, w.clock)
    ensures Rescuable(w, o)
    decreases |Pending(w)|
  {
    var p := Leases.OldestExists(w.orders, w.orders.Keys, o, PENDING, w.config.staleAfterMs, w.clock);
    var a := FreshActorExists(w.actors.Keys);
    var w' := SweptPending(w, a, p);
    SweptPendingLooks(w, a, p);
    if p == o {
      RescuableNow(w', o);
    } else {
      assert Pending(w') == Pending(w) - {p};
      SweepersGetThere(w', o);
    }
    SweptPendingSteps(w, a, p, o);
  }

  /** A PENDING order needs no delivery: once stale it is swept, and its stock returned. */
  lemma PendingIsRescuable(w: World, o: OrderId)
    requires o in w.orders && w.orders[o].status == PENDING
    ensures Rescuable(w, o)
  {
    var doc := w.orders[o];
    var lease := if doc.sweepLeaseUntil.Some? then doc.sweepLeaseUntil.value else 0;
    var ms := doc.updatedAt + w.config.staleAfterMs + lease;
    SweepersGetThere(Apply(w, Wait(ms)), o);
    RescuableLater(w, Wait(ms), o);
  }

  /**
   * The exact condition: held stock of an order that has not moved on can come
   * back without a further delivery of its job if and only if the order is not doomed.
   */
  lemma StrandedIff(w: World, o: OrderId)
    requires Inv(w) && Owed(w, o)
    ensures Rescuable(w, o) <==> !Doomed(w, o)
  {
    if Doomed(w, o) {
      if Rescuable(w, o) {
        var steps :| ValidRun(w, steps) && NoNewDelivery(steps, o) && !Owed(Run(w, steps), o);
        DoomedForGood(w, steps, o);
      }
    } else if w.orders[o].status == PENDING {
      PendingIsRescuable(w, o);
    } else {
      var a :| Rescues(w, a, o);
      if IsDelivery(w.actors[a].pc) {
        DeliveryRescues(w, a, o);
      } else {
        SweeperRescues(w, a, o);
      }
    }
  }
}
