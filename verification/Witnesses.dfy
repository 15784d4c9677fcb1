/**
 * Concrete runs showing that each hypothesis of Conservation and Money is
 * needed on its own, and that statuses promise less than their comments do
 * (src/orders/order-status.ts:11-30).
 */
module Witnesses {
  import opened Wrappers
  import opened OrderStatuses
  import opened StockLedger
  import opened Charges
  import opened Orders
  import opened SagaProtocol
  import opened SagaInvariant
  import opened Obligations
  import opened Stranding
  import opened Money

  const ORDER: OrderId := 1
  const WORKER: ActorId := 7
  const SWEEPER: ActorId := 9
  const SHELF := StockKey(3, 4)
  const ITEMS := [Item(4, 2)]

  /** The ranking sees what is on the shelf, and the provider accepts the payment. */
  const SMOOTH := Choice(map[SHELF := 5], true, false, 55)

  /** The customer cannot be found. */
  const NOBODY := Choice(map[SHELF := 5], false, false, 55)

  /** Five units on one shelf; an order goes stale after ten milliseconds. */
  const SHOP := World(SweeperConfig(10, 10), map[], Inventory(map[SHELF := 5], map[], map[]), map[], map[], 0,
                      map[SHELF := 5], map[])

  /** What may go wrong in a run: sweepers step in, customers vanish, the queue drops jobs. */
  datatype Trouble = Trouble(sweeps: bool, vanishes: bool, drops: bool)

  predicate Allowed(s: Step, t: Trouble) {
    && (s.Claim? ==> t.sweeps)
    && (s.Act? && !s.choice.customerFound ==> t.vanishes)
    && (s.GiveUp? ==> t.drops)
  }

  ghost predicate IsPath(steps: seq<Step>, w: World, t: Trouble) {
    ValidRun(SHOP, steps) && Run(SHOP, steps) == w && forall s :: s in steps ==> Allowed(s, t)
  }

  ghost predicate Reachable(w: World, t: Trouble) {
    exists steps :: IsPath(steps, w, t)
  }

  // ---------------------------------------------------------------- extending a run

  lemma Start(t: Trouble)
    ensures Initial(SHOP) && Reachable(SHOP, t)
  {
    assert IsPath([], SHOP, t);
  }

  lemma Longer(steps: seq<Step>, w: World, t: Trouble, s: Step)
    requires IsPath(steps, w, t) && Enabled(w, s) && Allowed(s, t)
    ensures IsPath(steps + [s], Apply(w, s), t)
  {
    RunOfOne(w, s);
    RunAppend(SHOP, steps, [s]);
  }

  lemma Then(w: World, t: Trouble, s: Step) returns (after: World)
    requires Reachable(w, t) && Enabled(w, s) && Allowed(s, t)
    ensures after == Apply(w, s) && Reachable(after, t)
  {
    after := Apply(w, s);
    var steps :| IsPath(steps, w, t);
    Longer(steps, w, t, s);
  }

  lemma LookThen(w: World, t: Trouble, a: ActorId, c: Choice, o: OrderId, pc: Pc, next: Option<Pc>)
    returns (after: World)
    requires Reachable(w, t) && a in w.actors && w.actors[a] == Actor(o, pc) && IsLook(pc) && Allowed(Act(a, c), t)
    requires next == AfterLook(o, Lookup(w.orders, o), Lookup(w.inventory.reserves, o), Lookup(w.charges, o), pc, c)
    ensures Reachable(after, t) && after == Move(w, a, next)
  {
    after := Then(w, t, Act(a, c));
  }

  /** The only actor there is takes one look. */
  lemma LookAlone(w: World, t: Trouble, c: Choice, pc: Pc, next: Pc) returns (after: World)
    requires Reachable(w, t) && w.actors == map[WORKER := Actor(ORDER, pc)] && IsLook(pc) && Allowed(Act(WORKER, c), t)
    requires Some(next) == AfterLook(ORDER, Lookup(w.orders, ORDER), Lookup(w.inventory.reserves, ORDER),
                                     Lookup(w.charges, ORDER), pc, c)
    ensures Reachable(after, t) && after == w.(actors := map[WORKER := Actor(ORDER, next)])
  {
    after := LookThen(w, t, WORKER, c, ORDER, pc, Some(next));
  }

  lemma LooksThrice(w: World, t: Trouble, pc0: Pc, pc1: Pc, pc2: Pc, pc3: Pc) returns (after: World)
    requires Reachable(w, t) && w.actors == map[WORKER := Actor(ORDER, pc0)] && IsLook(pc0) && IsLook(pc1)
    requires IsLook(pc2)
    requires var doc, reserve, charge := Lookup(w.orders, ORDER), Lookup(w.inventory.reserves, ORDER),
              Lookup(w.charges, ORDER);
             && AfterLook(ORDER, doc, reserve, charge, pc0, SMOOTH) == Some(pc1)
             && AfterLook(ORDER, doc, reserve, charge, pc1, SMOOTH) == Some(pc2)
             && AfterLook(ORDER, doc, reserve, charge, pc2, SMOOTH) == Some(pc3)
    ensures Reachable(after, t) && after == w.(actors := map[WORKER := Actor(ORDER, pc3)])
  {
    after := LookAlone(w, t, SMOOTH, pc0, pc1);
    after := LookAlone(after, t, SMOOTH, pc1, pc2);
    after := LookAlone(after, t, SMOOTH, pc2, pc3);
  }

  /** A compare-and-swap that matches. */
  lemma CasThen(w: World, t: Trouble, a: ActorId, o: OrderId, pc: Pc) returns (after: World)
    requires Reachable(w, t) && a in w.actors && w.actors[a] == Actor(o, pc) && IsCas(pc)
    requires Matches(w.orders, o, CasOf(pc).from)
    ensures Reachable(after, t)
    ensures after == Move(w.(orders := w.orders[o := Advanced(w.orders[o], CasOf(pc).to, CasOf(pc).patch, w.clock)]),
                          a, AfterCas(pc, true))
  {
    after := Then(w, t, Act(a, SMOOTH));
  }

  lemma CasAlone(w: World, t: Trouble, pc: Pc, next: Pc, doc: Order) returns (after: World)
    requires Reachable(w, t) && w.actors == map[WORKER := Actor(ORDER, pc)] && IsCas(pc)
    requires AfterCas(pc, true) == Some(next)
    requires w.orders == map[ORDER := doc] && doc.status == CasOf(pc).from
    ensures Reachable(after, t)
    ensures after == w.(orders := map[ORDER := Advanced(doc, CasOf(pc).to, CasOf(pc).patch, w.clock)],
                        actors := map[WORKER := Actor(ORDER, next)])
  {
    after := CasThen(w, t, WORKER, ORDER, pc);
  }

  lemma Drops(w: World, t: Trouble) returns (after: World)
    requires Reachable(w, t) && WORKER in w.actors && IsDelivery(w.actors[WORKER].pc) && t.drops
    ensures Reachable(after, t) && after == w.(actors := w.actors - {WORKER})
  {
    after := Then(w, t, Crash(WORKER, None));
    after := Then(after, t, GiveUp(WORKER));
  }

  // ---------------------------------------------------------------- towards the shelf

  lemma Delivered(t: Trouble) returns (w: World)
    ensures Reachable(w, t)
    ensures w == SHOP.(orders := map[ORDER := NewOrder(ITEMS, [3], 100, 0)], clock := 20,
                       actors := map[WORKER := Actor(ORDER, Reading)])
  {
    Start(t);
    w := Then(SHOP, t, AcceptOrder(ORDER, ITEMS, [3], 100));
    w := Then(w, t, Wait(20));
    w := Then(w, t, Deliver(WORKER, ORDER));
  }

  lemma TheShelfIsACandidate()
    ensures Candidates(map[SHELF := 5], [3], ITEMS) == [3]
  {
    assert [3][..0] == [];
    assert Candidates(map[SHELF := 5], [], ITEMS) == [];
  }

  /** A delivery about to try its only candidate, in a world where the order has gone stale. */
  lemma AboutToReserve(t: Trouble) returns (w: World)
    ensures Reachable(w, t)
    ensures w == SHOP.(orders := map[ORDER := NewOrder(ITEMS, [3], 100, 0)], clock := 20,
                       actors := map[WORKER := Actor(ORDER, Trying(ITEMS, [3]))])
  {
    w := Delivered(t);
    TheShelfIsACandidate();
    w := LooksThrice(w, t, Reading, PriorLookup(ITEMS), Ranking(ITEMS), Trying(ITEMS, [3]));
  }

  const TAKEN := Inventory(map[SHELF := 3], map[ORDER := Movement(3, ITEMS)], map[])

  lemma TwoUnitsFit()
    ensures DebitAll(map[SHELF := 5], 3, ITEMS) == Some(map[SHELF := 3])
  {
    assert |ITEMS| == 1 && ITEMS[..|ITEMS| - 1] == [] && ITEMS[|ITEMS| - 1] == Item(4, 2);
    assert DebitAll(map[SHELF := 5], 3, []) == Some(map[SHELF := 5]);
    assert map[SHELF := 5][SHELF := 3] == map[SHELF := 3];
  }

  /** The candidate has enough: the reserve commits whatever has become of the order. */
  lemma Reserves(w: World, t: Trouble) returns (after: World)
    requires Reachable(w, t) && w.actors == map[WORKER := Actor(ORDER, Trying(ITEMS, [3]))]
    requires w.inventory == SHOP.inventory
    ensures Reachable(after, t)
    ensures after == w.(inventory := TAKEN, actors := map[WORKER := Actor(ORDER, ReserveCas(3))])
  {
    TwoUnitsFit();
    after := Then(w, t, Act(WORKER, SMOOTH));
  }

  // ---------------------------------------------------------------- R

  /** A sweeper claims the stale order while the delivery is on its way to the shelf. */
  lemma ClaimedPending(t: Trouble) returns (w: World)
    requires t.sweeps
    ensures Reachable(w, t) && w.orders.Keys == {ORDER} && w.orders[ORDER].status == PENDING
    ensures w.inventory == SHOP.inventory && w.supplied == SHOP.supplied
    ensures w.actors == map[WORKER := Actor(ORDER, Trying(ITEMS, [3])), SWEEPER := Actor(ORDER, SweepFailCas)]
  {
    w := AboutToReserve(t);
    w := Then(w, t, Claim(SWEEPER, ORDER, PENDING));
  }

  /** It fails the order and dies before the release that was to follow. */
  lemma TimedOut(t: Trouble) returns (w: World)
    requires t.sweeps
    ensures Reachable(w, t) && w.orders.Keys == {ORDER} && w.orders[ORDER].status == FAILED
    ensures w.inventory == SHOP.inventory && w.supplied == SHOP.supplied
    ensures w.actors == map[WORKER := Actor(ORDER, Trying(ITEMS, [3]))]
  {
    w := ClaimedPending(t);
    w := CasThen(w, t, SWEEPER, ORDER, SweepFailCas);
    w := Then(w, t, SweeperStops(SWEEPER));
  }

  /**
   * FAILED does not mean that nothing is reserved. Without R nothing ever will
   * return the stock: a sweeper fails the order, the reserve commits after that,
   * and the sweeper and the queue give up before either looks again. No order is
   * live, no actor is left, FAILED is never swept, and two units are gone.
   */
  lemma GivingUpStrandsStock() returns (w: World)
    ensures Reachable(w, Trouble(true, false, true))
    ensures w.actors == map[] && w.orders.Keys == {ORDER} && w.orders[ORDER].status == FAILED
    ensures w.inventory == TAKEN && w.supplied == SHOP.supplied
    ensures Doomed(w, ORDER)
  {
    var t := Trouble(true, false, true);
    w := TimedOut(t);
    w := Reserves(w, t);
    w := Drops(w, t);
    assert Owed(w, ORDER) && forall a :: !Rescues(w, a, ORDER);
  }

  /** The reserve commits and the queue drops the job: nobody is left, but the order is still PENDING. */
  lemma DroppedWhilePending(t: Trouble) returns (w: World)
    requires t.drops
    ensures Reachable(w, t)
    ensures w == SHOP.(orders := map[ORDER := NewOrder(ITEMS, [3], 100, 0)], clock := 20, inventory := TAKEN)
  {
    w := AboutToReserve(t);
    w := Reserves(w, t);
    w := Drops(w, t);
  }

  lemma TakenComesBack()
    ensures ReleaseTx(TAKEN, ORDER).stock == map[SHELF := 5]
  {
    assert |ITEMS| == 1 && ITEMS[..|ITEMS| - 1] == [] && ITEMS[|ITEMS| - 1] == Item(4, 2);
    assert CreditAll(map[SHELF := 3], 3, []) == map[SHELF := 3];
    assert map[SHELF := 3][SHELF := 5] == map[SHELF := 5];
  }

  /** A sweeper fails the order that nobody else works on any more. */
  lemma FailedWithoutDelivery(before: World, t: Trouble) returns (w: World)
    requires t.sweeps && Reachable(before, t)
    requires before == SHOP.(orders := map[ORDER := NewOrder(ITEMS, [3], 100, 0)], clock := 20, inventory := TAKEN)
    ensures Reachable(w, t) && w.orders.Keys == {ORDER} && w.orders[ORDER].status == FAILED
    ensures w.inventory == TAKEN && w.actors == map[SWEEPER := Actor(ORDER, SweepFailRelease)]
  {
    w := ClaimedAlone(before, t);
    w := CasThen(w, t, SWEEPER, ORDER, SweepFailCas);
  }

  lemma ClaimedAlone(before: World, t: Trouble) returns (w: World)
    requires t.sweeps && Reachable(before, t)
    requires before == SHOP.(orders := map[ORDER := NewOrder(ITEMS, [3], 100, 0)], clock := 20, inventory := TAKEN)
    ensures Reachable(w, t) && w.orders.Keys == {ORDER} && w.orders[ORDER].status == PENDING
    ensures w.inventory == TAKEN && w.actors == map[SWEEPER := Actor(ORDER, SweepFailCas)]
  {
    w := Then(before, t, Claim(SWEEPER, ORDER, PENDING));
  }

  /** ... and returns its stock. */
  lemma ReleasedBySweeper(before: World, t: Trouble) returns (w: World)
    requires t.sweeps && Reachable(before, t) && before.orders.Keys == {ORDER} && before.orders[ORDER].status == FAILED
    requires before.inventory == TAKEN && before.actors == map[SWEEPER := Actor(ORDER, SweepFailRelease)]
    ensures Reachable(w, t) && w.actors == map[] && w.orders == before.orders
    ensures w.inventory.stock == SHOP.inventory.stock && !Owed(w, ORDER)
  {
    TakenComesBack();
    w := Then(before, t, Act(SWEEPER, SMOOTH));
  }

  /**
   * The queue giving up does not strand stock by itself: the order that lost its
   * last delivery is PENDING, a sweeper fails it, and the shelf is full again.
   */
  lemma GivingUpAloneDoesNot() returns (before: World, after: World)
    ensures Reachable(before, Trouble(true, false, true)) && Reachable(after, Trouble(true, false, true))
    ensures before.actors == map[] && !ObligationsMet(before) && NoneDoomed(before) && Rescuable(before, ORDER)
    ensures after.actors == map[] && after.orders.Keys == {ORDER} && after.orders[ORDER].status == FAILED
    ensures after.inventory.stock == SHOP.inventory.stock && !Owed(after, ORDER)
  {
    var t := Trouble(true, false, true);
    before := DroppedWhilePending(t);
    assert Owed(before, ORDER) && !HasDelivery(before, ORDER);
    PendingIsRescuable(before, ORDER);
    after := FailedWithoutDelivery(before, t);
    after := ReleasedBySweeper(after, t);
  }

  // ---------------------------------------------------------------- towards the provider

  const RESERVED := Order(ITEMS, [3], 100, STOCK_RESERVED, Some(3), None, None, None, 0, 20)

  /** The stock is reserved and recorded, and the delivery is about to look at its order again. */
  lemma Recorded(t: Trouble) returns (w: World)
    ensures Reachable(w, t)
    ensures w == SHOP.(orders := map[ORDER := RESERVED], inventory := TAKEN, clock := 20,
                       actors := map[WORKER := Actor(ORDER, Reading)])
  {
    w := AboutToReserve(t);
    w := Reserves(w, t);
    w := CasAlone(w, t, ReserveCas(3), Reading, NewOrder(ITEMS, [3], 100, 0));
  }

  /** The provider has never heard of the order; the request to charge it is on its way. */
  lemma AboutToCharge(t: Trouble) returns (w: World)
    ensures Reachable(w, t)
    ensures w == SHOP.(orders := map[ORDER := RESERVED], inventory := TAKEN, clock := 20,
                       actors := map[WORKER := Actor(ORDER, PspInsert(100))])
  {
    w := Recorded(t);
    w := LooksThrice(w, t, Reading, CustomerLookup(100), PspFind(100), PspInsert(100));
  }

  const PAID := Charge(55, 100, SUCCEEDED)

  lemma TakesMoney(w: World, t: Trouble) returns (after: World)
    requires Reachable(w, t) && WORKER in w.actors && w.actors[WORKER] == Actor(ORDER, PspInsert(100))
    requires w.charges == map[]
    ensures Reachable(after, t)
    ensures after == w.(charges := map[ORDER := PAID],
                        actors := w.actors[WORKER := Actor(ORDER, PaymentCas(ToResult(ORDER, PAID)))])
  {
    after := Then(w, t, Act(WORKER, SMOOTH));
  }

  // ---------------------------------------------------------------- C

  /** The answer of the provider is lost and the job is handed out again. */
  lemma AnswerLost(t: Trouble) returns (w: World)
    ensures Reachable(w, t)
    ensures w == SHOP.(orders := map[ORDER := RESERVED], inventory := TAKEN, clock := 20, charges := map[ORDER := PAID],
                       actors := map[WORKER := Actor(ORDER, Redelivery)])
  {
    w := AboutToCharge(t);
    w := TakesMoney(w, t);
    w := Then(w, t, Crash(WORKER, None));
  }

  /** The customer has vanished meanwhile, so the provider is not asked again. */
  lemma CustomerVanished(t: Trouble) returns (w: World)
    requires t.vanishes
    ensures Reachable(w, t)
    ensures w == SHOP.(orders := map[ORDER := RESERVED], inventory := TAKEN, clock := 20, charges := map[ORDER := PAID],
                       actors := map[WORKER := Actor(ORDER, NoCustomerCas)])
  {
    w := AnswerLost(t);
    w := LookAlone(w, t, SMOOTH, Redelivery, Reading);
    w := LookAlone(w, t, SMOOTH, Reading, CustomerLookup(100));
    w := LookAlone(w, t, NOBODY, CustomerLookup(100), NoCustomerCas);
  }

  lemma UnwoundUnasked(t: Trouble) returns (w: World)
    requires t.vanishes
    ensures Reachable(w, t)
    ensures w.orders.Keys == {ORDER} && w.orders[ORDER].status == COMPENSATING
    ensures w.inventory == TAKEN && w.charges == map[ORDER := PAID]
    ensures w.actors == map[WORKER := Actor(ORDER, CompensationRelease)]
  {
    w := CustomerVanished(t);
    w := CasAlone(w, t, NoCustomerCas, Reading, RESERVED);
    w := LookAlone(w, t, SMOOTH, Reading, CompensationRelease);
  }

  lemma StockReturned(t: Trouble) returns (w: World)
    requires t.vanishes
    ensures Reachable(w, t)
    ensures w.orders.Keys == {ORDER} && w.orders[ORDER].status == COMPENSATING
    ensures w.charges == map[ORDER := PAID] && w.actors == map[WORKER := Actor(ORDER, CompensatedCas)]
  {
    w := UnwoundUnasked(t);
    w := Then(w, t, Act(WORKER, SMOOTH));
  }

  /**
   * COMPENSATED does not mean that nobody was charged. Without C a delivery
   * unwinds an order that an earlier one charged, with no sweeper anywhere and
   * no job lost.
   */
  lemma VanishedCustomerPaysForNothing() returns (w: World)
    ensures Reachable(w, Trouble(false, true, false))
    ensures w.orders.Keys == {ORDER} && w.orders[ORDER].status == COMPENSATED
    ensures w.charges == map[ORDER := PAID] && !MoneySafe(w)
  {
    var t := Trouble(false, true, false);
    w := StockReturned(t);
    w := CasThen(w, t, WORKER, ORDER, CompensatedCas);
    assert !Fair(ViewOf(w, ORDER));
  }

  // ---------------------------------------------------------------- M

  /** A slow payment request; the order has gone stale again and a sweeper claims it. */
  lemma ClaimedReserved(t: Trouble) returns (w: World)
    requires t.sweeps
    ensures Reachable(w, t)
    ensures w.orders.Keys == {ORDER} && w.orders[ORDER].status == STOCK_RESERVED && w.charges == map[]
    ensures w.actors == map[WORKER := Actor(ORDER, PspInsert(100)), SWEEPER := Actor(ORDER, SweepChargeLookup)]
  {
    w := AboutToCharge(t);
    w := Then(w, t, Wait(20));
    w := Then(w, t, Claim(SWEEPER, ORDER, STOCK_RESERVED));
  }

  lemma FoundNoCharge(t: Trouble) returns (w: World)
    requires t.sweeps
    ensures Reachable(w, t)
    ensures w.orders.Keys == {ORDER} && w.orders[ORDER].status == STOCK_RESERVED && w.charges == map[]
    ensures w.actors == map[WORKER := Actor(ORDER, PspInsert(100)), SWEEPER := Actor(ORDER, SweepResolve(None))]
    ensures !NoChargeRace(w)
  {
    w := ClaimedReserved(t);
    w := LookThen(w, t, SWEEPER, SMOOTH, ORDER, SweepChargeLookup, Some(SweepResolve(None)));
    assert w.actors[SWEEPER].pc == SweepResolve(None) && Prospective(w.actors[WORKER].pc);
  }

  /**
   * Without M the charge lands between the lookup of the sweeper and its transition, with
   * every customer found and no job lost.
   */
  lemma LateChargeIsUnwound() returns (w: World)
    ensures Reachable(w, Trouble(true, false, false))
    ensures w.orders.Keys == {ORDER} && w.orders[ORDER].status == COMPENSATING
    ensures w.charges == map[ORDER := PAID] && !MoneySafe(w)
  {
    var t := Trouble(true, false, false);
    w := FoundNoCharge(t);
    w := TakesMoney(w, t);
    w := CasThen(w, t, SWEEPER, ORDER, SweepResolve(None));
    assert !Fair(ViewOf(w, ORDER));
  }
}
