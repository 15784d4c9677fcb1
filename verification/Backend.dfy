/**
 * The shared state as mutable collections, and what happens around every
 * operation that a saga worker or a sweeper performs on it.
 *
 * Other actors interfere before every operation: `schedule` says which steps
 * they take, and because it is an arbitrary function every interleaving is some
 * schedule. `faults` says which operations throw. The ghost history records
 * that whatever the executing code does is a run of the protocol.
 */
module Backends {
  import opened Wrappers
  import opened OrderStatuses
  import opened StockLedger
  import opened Inventories
  import opened Charges
  import opened Orders
  import opened SagaProtocol
  import opened SagaInvariant
  import opened Histories

  lemma ActConfig(w: World, a: ActorId, c: Choice)
    requires a in w.actors
    ensures ActStep(w, a, c).config == w.config
  {
    var pc := w.actors[a].pc;
    if IsCas(pc) {
    } else if IsRelease(pc) {
    } else if IsInsert(pc) {
    } else if pc.Trying? {
    } else {
    }
  }

  lemma StepConfig(w: World, s: Step)
    requires Enabled(w, s)
    ensures Apply(w, s).config == w.config
  {
    if s.Act? {
      ActConfig(w, s.actor, s.choice);
    }
  }

  /** The actor works on the order and performs `next`, or has returned. */
  ghost predicate Stands(actors: map<ActorId, Actor>, a: ActorId, o: OrderId, next: Option<Pc>) {
    if next.Some? then a in actors && actors[a] == Actor(o, next.value) else a !in actors
  }

  /** Where a thrown error leaves an actor: a delivery's job goes back to the queue, anything else is gone. */
  function AfterThrow(pc: Pc): Option<Pc> {
    if IsDelivery(pc) then Some(Redelivery) else None
  }

  /** Where a thrown error leaves an actor. */
  ghost predicate Thrown(actors: map<ActorId, Actor>, a: ActorId, before: Actor) {
    Stands(actors, a, before.order, AfterThrow(before.pc))
  }

  class Backend {
    const orders: OrdersRepository
    const inventory: InventoryService
    const charges: ChargeCollection
    const config: SweeperConfig
    const schedule: nat -> seq<Step>
    const faults: nat -> bool
    const lostResponses: nat -> bool
    const choices: nat -> Choice
    var actors: map<ActorId, Actor>
    var clock: nat
    var supplied: Stock
    var lastClaim: map<OrderId, nat>
    var ticks: nat
    ghost var history: History

    constructor (stock: Stock, config: SweeperConfig, schedule: nat -> seq<Step>, faults: nat -> bool,
                 lostResponses: nat -> bool, choices: nat -> Choice)
      requires forall key :: key in stock ==> 0 <= stock[key]
      ensures Valid() && fresh(orders) && fresh(inventory) && fresh(charges)
      ensures Initial(Snapshot()) && supplied == stock
      ensures this.config == config && this.schedule == schedule && this.faults == faults
    {
      orders := new OrdersRepository(map[]);
      inventory := new InventoryService(stock);
      charges := new ChargeCollection();
      this.config, this.schedule, this.faults := config, schedule, faults;
      this.lostResponses, this.choices := lostResponses, choices;
      actors, clock, supplied, lastClaim, ticks := map[], 0, stock, map[], 0;
      history := Start(World(config, map[], Inventory(stock, map[], map[]), map[], map[], 0, stock, map[]));
    }

    function Footprint(): set<object> {
      {this, orders, inventory, charges}
    }

    function Snapshot(): World
      reads Footprint()
    {
      World(config, orders.rows, inventory.Contents(), charges.rows, actors, clock, supplied, lastClaim)
    }

    /** The history is a run of the protocol, and it ends in the present. */
    ghost predicate Valid()
      reads Footprint()
    {
      IsRun(history) && history.state == Snapshot()
    }

    /** Nobody else acts and nothing fails. */
    ghost predicate Calm() {
      && (forall k :: schedule(k) == [])
      && (forall k :: !faults(k))
      && (forall k :: !lostResponses(k))
    }

    lemma ValidImpliesInv()
      requires Valid()
      ensures Inv(Snapshot())
    {
      HistoryKeepsInv(history);
    }

    /** What an actor at these points may rely on. */
    lemma Beliefs(a: ActorId)
      requires Valid() && a in actors
      ensures actors[a].pc == WinnerLookup ==> actors[a].order in inventory.reserves
      ensures actors[a].pc == PspWinner ==> actors[a].order in charges.rows
    {
      ValidImpliesInv();
      Known(Snapshot(), a);
    }

    lemma CasBeliefs(a: ActorId)
      requires Valid() && a in actors && IsCas(actors[a].pc)
      ensures var Actor(o, pc) := actors[a];
              && o in orders.rows && Reaches(CasOf(pc).from, orders.rows[o].status)
              && (orders.rows[o].status == CasOf(pc).from || Rank(CasOf(pc).from) < Rank(orders.rows[o].status))
    {
      ValidImpliesInv();
      Known(Snapshot(), a);
      CasBelief(actors[a].order, ViewOf(Snapshot(), actors[a].order), actors[a].pc);
    }

    /** Orders are still there and further along than at any earlier moment, and what was charged then still is. */
    lemma Since(earlier: History)
      requires Valid() && Within(earlier, history)
      ensures WorldEvolves(earlier.state, Snapshot()) && Climbs(earlier.state.orders, orders.rows)
    {
      EarlierEvolves(earlier, history);
      EvolvingClimbs(earlier.state, Snapshot());
    }

    /** Appends to the history a step that has just been performed. */
    ghost method Record(s: Step)
      requires IsRun(history) && Enabled(history.state, s) && Snapshot() == Apply(history.state, s)
      modifies this`history
      ensures Valid() && history == Then(old(history), s, Snapshot())
    {
      ExtendRun(history, s, Snapshot());
      history := Then(history, s, Snapshot());
    }

    method Restore(w: World)
      requires w.config == config
      modifies orders, inventory, charges, this`actors, this`clock, this`supplied, this`lastClaim
      ensures Snapshot() == w
    {
      orders.rows := w.orders;
      inventory.stock, inventory.reserves, inventory.releases := w.inventory.stock, w.inventory.reserves,
          w.inventory.releases;
      charges.rows := w.charges;
      actors, clock, supplied, lastClaim := w.actors, w.clock, w.supplied, w.lastClaim;
    }

    /** Lets somebody take one step. */
    method TakeStep(s: Step)
      requires Valid() && Enabled(Snapshot(), s)
      modifies Footprint()
      ensures Valid() && history == Then(old(history), s, Snapshot())
      ensures Snapshot() == Apply(old(Snapshot()), s)
      ensures ticks == old(ticks)
    {
      var w := Apply(Snapshot(), s);
      StepConfig(Snapshot(), s);
      Restore(w);
      Record(s);
    }

    /** Whatever the others do before the next operation of actor `me`. */
    method Interfere(me: ActorId)
      requires Valid() && me in actors
      modifies Footprint()
      ensures Valid() && Onward(old(history), history, me)
      ensures me in actors && actors[me] == old(actors[me])
      ensures Calm() ==> Snapshot() == old(Snapshot())
      ensures ticks == old(ticks) + 1 && history == Played(old(history), schedule(old(ticks)), Some(me))
    {
      ghost var before := Snapshot();
      var steps := schedule(ticks);
      ticks := ticks + 1;
      assert Snapshot() == before;
      for i := 0 to |steps|
        invariant ticks == old(ticks) + 1 && history == Played(old(history), steps[..i], Some(me))
        invariant Valid() && Onward(old(history), history, me)
        invariant me in actors && actors[me] == old(actors[me])
        invariant Calm() ==> Snapshot() == before
      {
        PlaysNext(old(history), steps, i, Some(me));
        if Enabled(Snapshot(), steps[i]) && NotBy(steps[i], me) {
          ValidImpliesInv();
          NotByKeepsActor(Snapshot(), steps[i], me);
          TakeStep(steps[i]);
        }
      }
      assert steps[..|steps|] == steps;
    }

    /** Whatever anybody does before somebody new turns up. */
    method PassTime()
      requires Valid()
      modifies Footprint()
      ensures Valid() && Within(old(history), history)
      ensures Calm() ==> Snapshot() == old(Snapshot())
      ensures ticks == old(ticks) + 1 && history == Played(old(history), schedule(old(ticks)), None)
    {
      ghost var before := Snapshot();
      var steps := schedule(ticks);
      ticks := ticks + 1;
      assert Snapshot() == before;
      for i := 0 to |steps|
        invariant ticks == old(ticks) + 1 && history == Played(old(history), steps[..i], None)
        invariant Valid() && Within(old(history), history)
        invariant Calm() ==> Snapshot() == before
      {
        PlaysNext(old(history), steps, i, None);
        if Enabled(Snapshot(), steps[i]) {
          TakeStep(steps[i]);
        }
      }
      assert steps[..|steps|] == steps;
    }

    /** A delivery's job goes back to the queue; anything else simply stops. */
    method Throw(a: ActorId)
      requires Valid() && a in actors
      modifies Footprint()
      ensures Valid() && Onward(old(history), history, a)
      ensures Thrown(actors, a, old(actors[a])) && ticks == old(ticks)
    {
      if IsDelivery(actors[a].pc) {
        // A payment request that is already on its way outlives its caller.
        var orphan := choices(ticks).transactionId;
        TakeStep(Crash(a, if Remains(actors[a].pc).Some? && orphan !in actors then Some(orphan) else None));
      } else {
        TakeStep(SweeperStops(a));
      }
    }

    /** The moment before an operation: others act, then the operation may fail without effect. */
    method Begin(a: ActorId) returns (threw: bool)
      requires Valid() && a in actors
      modifies Footprint()
      ensures Valid() && Onward(old(history), history, a)
      ensures ticks == old(ticks) + 1 && (threw <==> faults(ticks))
      ensures threw ==> Thrown(actors, a, old(actors[a]))
      ensures !threw ==> a in actors && actors[a] == old(actors[a])
      ensures Calm() ==> !threw && Snapshot() == old(Snapshot())
    {
      Interfere(a);
      threw := faults(ticks);
      if threw {
        ghost var mid := history;
        Throw(a);
        OnwardOn(old(history), mid, history, a);
      }
    }

    /** Moves the actor on once its operation has been performed on the collections, and records the step. */
    method Advance(a: ActorId, next: Option<Pc>, ghost c: Choice)
      requires IsRun(history) && a in actors && a in history.state.actors
      requires Move(Snapshot(), a, next) == ActStep(history.state, a, c)
      modifies this
      ensures Valid() && history == Then(old(history), Act(a, c), Snapshot())
      ensures Snapshot() == Move(old(Snapshot()), a, next)
      ensures Stands(actors, a, old(actors[a]).order, next) && ticks == old(ticks)
    {
      if next.Some? {
        actors := actors[a := Actor(actors[a].order, next.value)];
      } else {
        actors := actors - {a};
      }
      assert Snapshot() == Move(old(Snapshot()), a, next);
      Record(Act(a, c));
    }
  }
}
