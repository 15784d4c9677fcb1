/**
 * Who gives stranded stock back (src/orders/order-saga.processor.ts:53-68).
 *
 * A reserve can commit around the compare-and-swap that fails its order, so
 * FAILED does not mean "nothing is reserved". What holds is that a delivery is
 * still under way whose remaining path ends in the release, unless the queue
 * gave up on that delivery.
 */
module Obligations {
  import opened Wrappers
  import opened OrderStatuses
  import opened StockLedger
  import opened Charges
  import opened Orders
  import opened SagaProtocol
  import opened SagaInvariant

  /** Stock is held for an order that has not (or will never have) left PENDING for STOCK_RESERVED. */
  predicate Owes(v: View) {
    !PastReserve(v) && v.reserve.Some? && v.release == None
  }

  predicate Owed(w: World, o: OrderId) {
    o in w.orders && Owes(ViewOf(w, o))
  }

  ghost predicate Delivers(w: World, a: ActorId, o: OrderId) {
    a in w.actors && w.actors[a].order == o && IsDelivery(w.actors[a].pc)
  }

  /** Some delivery of the order is live, or will be handed out again. */
  ghost predicate HasDelivery(w: World, o: OrderId) {
    exists a :: Delivers(w, a, o)
  }

  ghost predicate ObligationsMet(w: World) {
    forall o :: Owed(w, o) ==> HasDelivery(w, o)
  }

  /** The queue drops the last delivery of an order that still holds stock. */
  ghost predicate Abandons(w: World, s: Step) {
    && s.GiveUp? && s.actor in w.actors
    && Owed(w, w.actors[s.actor].order)
    && forall b :: Delivers(w, b, w.actors[s.actor].order) ==> b == s.actor
  }

  // ---------------------------------------------------------------- one step

  /** A delivery only returns once its order owes nothing; nobody else can make an order owe. */
  lemma LocalDuty(o: OrderId, v: View, pc: Pc, c: Choice, now: nat, fits: bool)
    requires OrderOk(o, v) && PcOk(o, v, pc)
    ensures var Local(v', next) := LocalStep(o, v, pc, c, now, fits);
            Owes(v') ==> if IsDelivery(pc) then next.Some? && IsDelivery(next.value) else Owes(v)
  {
  }

  lemma OwnStepKeepsDuty(w: World, a: ActorId, c: Choice)
    requires Inv(w) && a in w.actors && Owed(ActStep(w, a, c), w.actors[a].order)
    ensures Delivers(ActStep(w, a, c), a, w.actors[a].order)
            || (Owed(w, w.actors[a].order) && !IsDelivery(w.actors[a].pc))
  {
    var Actor(o, pc) := w.actors[a];
    ActLeavesOthers(w, a, c);
    Known(w, a);
    var fits := ActTouchesOnly(w, a, c);
    LocalDuty(o, ViewOf(w, o), pc, c, w.clock, fits);
  }

  lemma ActKeepsObligations(w: World, a: ActorId, c: Choice)
    requires Inv(w) && ObligationsMet(w) && a in w.actors
    ensures ObligationsMet(ActStep(w, a, c))
  {
    var w' := ActStep(w, a, c);
    ActLeavesOthers(w, a, c);
    forall o | Owed(w', o) ensures HasDelivery(w', o) {
      if o == w.actors[a].order {
        OwnStepKeepsDuty(w, a, c);
        if !Delivers(w', a, o) {
          var b :| Delivers(w, b, o);
          assert Delivers(w', b, o);
        }
      } else {
        assert ViewOf(w', o) == ViewOf(w, o);
        assert Owed(w, o);
        var b :| Delivers(w, b, o);
        assert Delivers(w', b, o);
      }
    }
  }

  /** Steps that change no ledger and remove no delivery. */
  lemma SameDuties(w: World, w': World)
    requires ObligationsMet(w)
    requires forall o :: Owed(w', o) ==> Owed(w, o)
    requires forall a, o :: Delivers(w, a, o) ==> Delivers(w', a, o)
    ensures ObligationsMet(w')
  {
  }

  lemma GiveUpKeepsObligations(w: World, a: ActorId)
    requires ObligationsMet(w) && Enabled(w, GiveUp(a))
    ensures ObligationsMet(Apply(w, GiveUp(a))) <==> !Abandons(w, GiveUp(a))
  {
    var w', o := Apply(w, GiveUp(a)), w.actors[a].order;
    forall p | p in w.orders ensures ViewOf(w', p) == ViewOf(w, p) {
    }
    if Abandons(w, GiveUp(a)) {
      assert Owed(w', o);
      forall b ensures !Delivers(w', b, o) {
        assert Delivers(w', b, o) ==> Delivers(w, b, o);
      }
    } else {
      forall p | Owed(w', p) ensures HasDelivery(w', p) {
        assert Owed(w, p);
        if p == o {
          var b :| Delivers(w, b, o) && b != a;
          assert Delivers(w', b, p);
        } else {
          var b :| Delivers(w, b, p);
          assert Delivers(w', b, p);
        }
      }
    }
  }

  /**
   * Exactly one kind of step can leave an order that owes a release without a
   * delivery: the queue dropping its last one.
   */
  lemma StepKeepsObligations(w: World, s: Step)
    requires Inv(w) && Enabled(w, s) && ObligationsMet(w)
    ensures ObligationsMet(Apply(w, s)) <==> !Abandons(w, s)
  {
    if s.Act? {
      ActKeepsObligations(w, s.actor, s.choice);
    } else if s.GiveUp? {
      GiveUpKeepsObligations(w, s.actor);
    } else {
      OtherStepDuties(w, s);
      OtherStepDeliveries(w, s);
      SameDuties(w, Apply(w, s));
    }
  }

  lemma OtherStepDuties(w: World, s: Step)
    requires Inv(w) && Enabled(w, s) && !s.Act? && !s.GiveUp?
    ensures forall o :: Owed(Apply(w, s), o) ==> Owed(w, o)
  {
  }

  lemma OtherStepDeliveries(w: World, s: Step)
    requires Enabled(w, s) && !s.Act? && !s.GiveUp?
    ensures forall a, o :: Delivers(w, a, o) ==> Delivers(Apply(w, s), a, o)
  {
  }

  // ---------------------------------------------------------------- whole runs

  /** Hypothesis R: a delivery that does not return normally is handed out again. */
  ghost predicate QueueNeverGivesUp(steps: seq<Step>) {
    forall i :: 0 <= i < |steps| ==> !steps[i].GiveUp?
  }

  ghost predicate NeverAbandons(w: World, steps: seq<Step>)
    requires ValidRun(w, steps)
    decreases |steps|
  {
    steps == [] || (!Abandons(w, steps[0]) && NeverAbandons(Apply(w, steps[0]), steps[1..]))
  }

  ghost predicate MetThroughout(w: World, steps: seq<Step>)
    requires ValidRun(w, steps)
    decreases |steps|
  {
    ObligationsMet(w) && (steps == [] || MetThroughout(Apply(w, steps[0]), steps[1..]))
  }

  /** Over whole runs: every owed order always has a delivery if and only if no step takes away the last one. */
  lemma {:induction false} ObligationsMetIff(w: World, steps: seq<Step>)
    requires Inv(w) && ObligationsMet(w) && ValidRun(w, steps)
    ensures MetThroughout(w, steps) <==> NeverAbandons(w, steps)
    decreases |steps|
  {
    if steps != [] {
      StepKeepsObligations(w, steps[0]);
      StepKeepsInv(w, steps[0]);
      if !Abandons(w, steps[0]) {
        ObligationsMetIff(Apply(w, steps[0]), steps[1..]);
      } else {
        NotMetAtOnce(Apply(w, steps[0]), steps[1..]);
      }
    }
  }

  lemma NotMetAtOnce(w: World, steps: seq<Step>)
    requires ValidRun(w, steps) && !ObligationsMet(w)
    ensures !MetThroughout(w, steps)
  {
  }

  lemma {:induction false} MetAtEnd(w: World, steps: seq<Step>)
    requires ValidRun(w, steps) && MetThroughout(w, steps)
    ensures ObligationsMet(Run(w, steps))
    decreases |steps|
  {
    if steps != [] {
      MetAtEnd(Apply(w, steps[0]), steps[1..]);
    }
  }

  lemma {:induction false} NoGiveUpNeverAbandons(w: World, steps: seq<Step>)
    requires ValidRun(w, steps) && QueueNeverGivesUp(steps)
    ensures NeverAbandons(w, steps)
    decreases |steps|
  {
    if steps != [] {
      forall i | 0 <= i < |steps[1..]| ensures !steps[1..][i].GiveUp? {
        assert steps[1..][i] == steps[i + 1];
      }
      NoGiveUpNeverAbandons(Apply(w, steps[0]), steps[1..]);
    }
  }

  /** Under R, in every reachable state whoever holds stock without having moved on has a delivery. */
  lemma ReachableObligationsMet(w: World, steps: seq<Step>)
    requires Initial(w) && ValidRun(w, steps) && QueueNeverGivesUp(steps)
    ensures ObligationsMet(Run(w, steps))
  {
    InitialInv(w);
    NoGiveUpNeverAbandons(w, steps);
    ObligationsMetIff(w, steps);
    MetAtEnd(w, steps);
  }

  // ---------------------------------------------------------------- the remaining path

  /** How many kinds of operation a delivery of a failed order has before it returns. */
  function Stage(pc: Pc): nat {
    match pc
    case FailedRelease => 1
    case Reading => 2
    case ReserveCas(_) => 3
    case OutOfStockCas => 3
    case Redelivery => 3
    case WinnerLookup => 4
    case Trying(_, _) => 5
    case Ranking(_) => 6
    case PriorLookup(_) => 7
    case _ => 0
  }

  function Remaining(pc: Pc): nat {
    if pc.Trying? then |pc.candidates| else 0
  }

  predicate Nearer(pc: Pc, before: Pc) {
    Stage(pc) < Stage(before) || (Stage(pc) == Stage(before) && Remaining(pc) < Remaining(before))
  }

  lemma LocalDescends(o: OrderId, v: View, pc: Pc, c: Choice, now: nat, fits: bool)
    requires OrderOk(o, v) && PcOk(o, v, pc) && v.order.status == FAILED && IsDelivery(pc)
    ensures var Local(v', next) := LocalStep(o, v, pc, c, now, fits);
            && v'.order.status == FAILED
            && if next.Some? then IsDelivery(next.value) && Nearer(next.value, pc) else !Owes(v')
  {
  }

  /** Whatever others did meanwhile, each operation of a delivery of a FAILED order brings it nearer to the release. */
  lemma OwnStepDescends(w: World, a: ActorId, o: OrderId, c: Choice)
    requires Inv(w) && Delivers(w, a, o) && o in w.orders && w.orders[o].status == FAILED
    ensures var w' := ActStep(w, a, c);
            && Inv(w') && o in w'.orders && w'.orders[o].status == FAILED
            && if a in w'.actors then Delivers(w', a, o) && Nearer(w'.actors[a].pc, w.actors[a].pc)
               else !Owed(w', o)
  {
    Known(w, a);
    ActKeepsInv(w, a, c);
    var fits := ActTouchesOnly(w, a, c);
    LocalDescends(o, ViewOf(w, o), w.actors[a].pc, c, w.clock, fits);
    var w' := ActStep(w, a, c);
    assert ViewOf(w', o).order == w'.orders[o];
  }

  /** The states an actor runs through while nobody else moves. */
  ghost predicate Alone(states: seq<World>, a: ActorId, choices: nat -> Choice, k: nat) {
    && states != []
    && (|states| > 1 ==>
          && a in states[0].actors
          && states[1] == ActStep(states[0], a, choices(k))
          && Alone(states[1..], a, choices, k + 1))
  }

  lemma PrependAlone(w: World, rest: seq<World>, a: ActorId, choices: nat -> Choice, k: nat)
    requires a in w.actors && Alone(rest, a, choices, k + 1) && rest[0] == ActStep(w, a, choices(k))
    ensures Alone([w] + rest, a, choices, k)
  {
  }

  /** Left alone, a delivery of a FAILED order returns after finitely many operations, with nothing left to release. */
  lemma {:induction false} RemainingPathReleases(w: World, a: ActorId, o: OrderId, choices: nat -> Choice, k: nat)
    returns (states: seq<World>)
    requires Inv(w) && Delivers(w, a, o) && o in w.orders && w.orders[o].status == FAILED
    ensures Alone(states, a, choices, k) && states[0] == w
    ensures var end := states[|states| - 1]; a !in end.actors && !Owed(end, o)
    decreases Stage(w.actors[a].pc), Remaining(w.actors[a].pc)
  {
    OwnStepDescends(w, a, o, choices(k));
    var next := ActStep(w, a, choices(k));
    var rest := [next];
    if a in next.actors {
      rest := RemainingPathReleases(next, a, o, choices, k + 1);
    }
    PrependAlone(w, rest, a, choices, k);
    states := [w] + rest;
  }

  /** Being left alone is one of the runs of the protocol. */
  lemma {:induction false} AloneIsARun(states: seq<World>, a: ActorId, choices: nat -> Choice, k: nat)
    returns (steps: seq<Step>)
    requires Alone(states, a, choices, k)
    ensures ValidRun(states[0], steps) && Run(states[0], steps) == states[|states| - 1]
    ensures forall s :: s in steps ==> s.Act?
  {
    steps := [];
    if |states| > 1 {
      var rest := AloneIsARun(states[1..], a, choices, k + 1);
      var s := Act(a, choices(k));
      assert states[1] == Apply(states[0], s);
      PrependRun(states[0], s, rest);
      steps := [s] + rest;
    }
  }

  lemma PrependRun(w: World, s: Step, rest: seq<Step>)
    requires Enabled(w, s) && ValidRun(Apply(w, s), rest)
    ensures ValidRun(w, [s] + rest) && Run(w, [s] + rest) == Run(Apply(w, s), rest)
  {
  }
}
