/**
 * Whether the customer was charged agrees with what became of the order.
 *
 * PAYMENT_AUTHORIZED and COMPLETED always mean charged. The converse, that an
 * unwound order was not charged, is not unconditional: a worker may still
 * charge while a sweeper that found no charge unwinds the order, and an order
 * whose customer has vanished is unwound without asking the provider.
 */
module Money {
  import opened Wrappers
  import opened Totals
  import opened OrderStatuses
  import opened StockLedger
  import opened Charges
  import opened Orders
  import opened SagaProtocol
  import opened SagaInvariant
  import opened Conservation

  predicate Taken(v: View) {
    v.charge.Some? && v.charge.value.status == SUCCEEDED
  }

  /** An order that is being, or has been, unwound was not charged. */
  predicate Fair(v: View) {
    CompensationOwed(v) ==> !Taken(v)
  }

  ghost predicate MoneySafe(w: World) {
    forall o :: o in w.orders ==> Fair(ViewOf(w, o))
  }

  /**
   * The two ways it goes wrong, as guards on the operation about to be done: the
   * order is sent to COMPENSATING although its charge succeeded, or a charge
   * succeeds although its order is already being unwound.
   */
  predicate Harms(v: View, pc: Pc, c: Choice) {
    || (IsCas(pc) && CasOf(pc).to == COMPENSATING && v.order.status == STOCK_RESERVED && Taken(v))
    || (IsInsert(pc) && v.charge == None && !c.declined && CompensationOwed(v))
  }

  predicate Harmful(w: World, s: Step) {
    && s.Act? && s.actor in w.actors && w.actors[s.actor].order in w.orders
    && Harms(ViewOf(w, w.actors[s.actor].order), w.actors[s.actor].pc, s.choice)
  }

  lemma LocalFairness(o: OrderId, v: View, pc: Pc, c: Choice, now: nat, fits: bool)
    requires OrderOk(o, v) && PcOk(o, v, pc) && Fair(v)
    ensures Fair(LocalStep(o, v, pc, c, now, fits).view) <==> !Harms(v, pc, c)
  {
  }

  lemma ActMoney(w: World, a: ActorId, c: Choice)
    requires Inv(w) && MoneySafe(w) && a in w.actors
    ensures MoneySafe(ActStep(w, a, c)) <==> !Harmful(w, Act(a, c))
  {
    var o, w' := w.actors[a].order, ActStep(w, a, c);
    ActLeavesOthers(w, a, c);
    if o in w.orders {
      Known(w, a);
      var fits := ActTouchesOnly(w, a, c);
      LocalFairness(o, ViewOf(w, o), w.actors[a].pc, c, w.clock, fits);
    }
    forall p | p in w'.orders && p != o ensures Fair(ViewOf(w', p)) {
      assert Fair(ViewOf(w, p));
    }
  }

  lemma OtherStepMoney(w: World, s: Step)
    requires Inv(w) && Enabled(w, s) && !s.Act? && MoneySafe(w)
    ensures MoneySafe(Apply(w, s))
  {
  }

  /** A step breaks the agreement if and only if it is one of the two harmful operations. */
  lemma StepKeepsMoney(w: World, s: Step)
    requires Inv(w) && Enabled(w, s) && MoneySafe(w)
    ensures MoneySafe(Apply(w, s)) <==> !Harmful(w, s)
  {
    if s.Act? {
      ActMoney(w, s.actor, s.choice);
    } else {
      OtherStepMoney(w, s);
    }
  }

  ghost predicate NeverHarmful(w: World, steps: seq<Step>)
    requires ValidRun(w, steps)
    decreases |steps|
  {
    steps == [] || (!Harmful(w, steps[0]) && NeverHarmful(Apply(w, steps[0]), steps[1..]))
  }

  ghost predicate MoneyThroughout(w: World, steps: seq<Step>)
    requires ValidRun(w, steps)
    decreases |steps|
  {
    MoneySafe(w) && (steps == [] || MoneyThroughout(Apply(w, steps[0]), steps[1..]))
  }

  /** Over whole runs: the agreement holds in every state if and only if no step is harmful. */
  lemma {:induction false} MoneyIff(w: World, steps: seq<Step>)
    requires Inv(w) && MoneySafe(w) && ValidRun(w, steps)
    ensures MoneyThroughout(w, steps) <==> NeverHarmful(w, steps)
    decreases |steps|
  {
    if steps != [] {
      StepKeepsMoney(w, steps[0]);
      StepKeepsInv(w, steps[0]);
      if !Harmful(w, steps[0]) {
        MoneyIff(Apply(w, steps[0]), steps[1..]);
      } else {
        UnsafeAtOnce(Apply(w, steps[0]), steps[1..]);
      }
    }
  }

  lemma UnsafeAtOnce(w: World, steps: seq<Step>)
    requires ValidRun(w, steps) && !MoneySafe(w)
    ensures !MoneyThroughout(w, steps)
  {
  }

  // ---------------------------------------------------------------- sufficient hypotheses on a deployment

  /** Between reading STOCK_RESERVED and the provider's insert. */
  predicate Prospective(pc: Pc) {
    pc.CustomerLookup? || pc.PspFind? || pc.PspInsert? || pc.OrphanFind? || pc.OrphanInsert?
  }

  /**
   * Hypothesis M, in one state: while a sweeper that found no charge has not yet
   * settled the order, no payment request for that order is on its way.
   */
  ghost predicate NoChargeRace(w: World) {
    forall a, b :: a in w.actors && b in w.actors && w.actors[a].order == w.actors[b].order ==>
      !(w.actors[a].pc == SweepResolve(None) && Prospective(w.actors[b].pc))
  }

  /** Hypothesis C, for one step: the customer lookup never comes back empty. */
  predicate CustomerFound(w: World, s: Step) {
    s.Act? && s.actor in w.actors && w.actors[s.actor].pc.CustomerLookup? ==> s.choice.customerFound
  }

  /** C and M along a whole run. */
  ghost predicate Disciplined(w: World, steps: seq<Step>)
    requires ValidRun(w, steps)
    decreases |steps|
  {
    && NoChargeRace(w)
    && (steps == [] || (CustomerFound(w, steps[0]) && Disciplined(Apply(w, steps[0]), steps[1..])))
  }

  /** What C and M maintain between an order and any actor working on it. */
  predicate PairOk(v: View, pc: Pc) {
    && (CompensationOwed(v) && v.charge == None ==> !Prospective(pc))
    && (pc == SweepResolve(None) && v.order.status == STOCK_RESERVED ==> v.charge == None)
    && !pc.NoCustomerCas?
  }

  ghost predicate PairsOk(w: World) {
    forall a :: a in w.actors && w.actors[a].order in w.orders ==> PairOk(ViewOf(w, w.actors[a].order), w.actors[a].pc)
  }

  /** An operation of an actor in order is not harmful, ... */
  lemma LocalHarmless(o: OrderId, v: View, pc: Pc, c: Choice)
    requires OrderOk(o, v) && PcOk(o, v, pc) && PairOk(v, pc)
    ensures !Harms(v, pc, c)
  {
  }

  /** ... leaves its own pair in order, and ... */
  lemma LocalPair(o: OrderId, v: View, pc: Pc, c: Choice, now: nat, fits: bool)
    requires OrderOk(o, v) && PcOk(o, v, pc) && PairOk(v, pc) && (pc.CustomerLookup? ==> c.customerFound)
    ensures var Local(v', next) := LocalStep(o, v, pc, c, now, fits); next.Some? ==> PairOk(v', next.value)
  {
    if IsCas(pc) {
    } else if IsInsert(pc) {
    } else if IsLook(pc) {
    }
  }

  /** ... keeps the pair of any other actor of the order, as long as the two do not race. */
  lemma OtherPair(o: OrderId, v: View, pc: Pc, c: Choice, now: nat, fits: bool, other: Pc)
    requires OrderOk(o, v) && PcOk(o, v, pc) && PairOk(v, pc)
    requires PcOk(o, v, other) && PairOk(v, other)
    requires !(pc == SweepResolve(None) && Prospective(other)) && !(other == SweepResolve(None) && Prospective(pc))
    ensures PairOk(LocalStep(o, v, pc, c, now, fits).view, other)
  {
    if IsCas(pc) {
    } else if IsInsert(pc) {
    }
  }

  lemma ActPairs(w: World, a: ActorId, c: Choice)
    requires Inv(w) && PairsOk(w) && NoChargeRace(w) && a in w.actors && CustomerFound(w, Act(a, c))
    ensures PairsOk(ActStep(w, a, c)) && !Harmful(w, Act(a, c))
  {
    var Actor(o, pc) := w.actors[a];
    var w' := ActStep(w, a, c);
    ActLeavesOthers(w, a, c);
    if o in w.orders {
      Known(w, a);
      var fits := ActTouchesOnly(w, a, c);
      LocalHarmless(o, ViewOf(w, o), pc, c);
      LocalPair(o, ViewOf(w, o), pc, c, w.clock, fits);
      forall b | b in w.actors && b != a && w.actors[b].order == o ensures PairOk(ViewOf(w', o), w.actors[b].pc) {
        Known(w, b);
        OtherPair(o, ViewOf(w, o), pc, c, w.clock, fits, w.actors[b].pc);
      }
    }
    forall b | b in w'.actors && w'.actors[b].order in w'.orders
      ensures PairOk(ViewOf(w', w'.actors[b].order), w'.actors[b].pc)
    {
      if w'.actors[b].order != o {
        assert PairOk(ViewOf(w, w.actors[b].order), w.actors[b].pc);
      }
    }
  }

  /** A view that shows the same status and charge suits the same actors. */
  lemma SamePair(v: View, v': View, pc: Pc)
    requires PairOk(v, pc) && v'.charge == v.charge && v'.order.status == v.order.status
    ensures PairOk(v', pc)
  {
  }

  lemma OtherStepActors(w: World, s: Step, b: ActorId)
    requires Enabled(w, s) && !s.Act? && PairsOk(w) && b in Apply(w, s).actors
    requires Apply(w, s).actors[b].order in w.orders
    ensures PairOk(ViewOf(w, Apply(w, s).actors[b].order), Apply(w, s).actors[b].pc)
  {
  }

  lemma OtherStepViews(w: World, s: Step, o: OrderId)
    requires Inv(w) && Enabled(w, s) && !s.Act? && o in w.orders
    ensures ViewOf(Apply(w, s), o).charge == ViewOf(w, o).charge
    ensures ViewOf(Apply(w, s), o).order.status == w.orders[o].status
  {
  }

  lemma NewOrderPair(w: World, s: Step, b: ActorId)
    requires Inv(w) && s.AcceptOrder? && Enabled(w, s) && b in w.actors && w.actors[b].order == s.order
    ensures PairOk(ViewOf(Apply(w, s), s.order), w.actors[b].pc)
  {
  }

  lemma OtherStepPair(w: World, s: Step, b: ActorId)
    requires Inv(w) && Enabled(w, s) && !s.Act? && PairsOk(w)
    requires b in Apply(w, s).actors && Apply(w, s).actors[b].order in Apply(w, s).orders
    ensures PairOk(ViewOf(Apply(w, s), Apply(w, s).actors[b].order), Apply(w, s).actors[b].pc)
  {
    var Actor(o, pc) := Apply(w, s).actors[b];
    if o in w.orders {
      OtherStepActors(w, s, b);
      OtherStepViews(w, s, o);
      SamePair(ViewOf(w, o), ViewOf(Apply(w, s), o), pc);
    } else {
      NewOrderPair(w, s, b);
    }
  }

  lemma OtherStepPairs(w: World, s: Step)
    requires Inv(w) && Enabled(w, s) && !s.Act? && PairsOk(w)
    ensures PairsOk(Apply(w, s))
  {
    var w' := Apply(w, s);
    forall b | b in w'.actors && w'.actors[b].order in w'.orders
      ensures PairOk(ViewOf(w', w'.actors[b].order), w'.actors[b].pc)
    {
      OtherStepPair(w, s, b);
    }
  }

  /** Under C and M no step of the run is harmful. */
  lemma {:induction false} DisciplinedNeverHarmful(w: World, steps: seq<Step>)
    requires Inv(w) && PairsOk(w) && ValidRun(w, steps) && Disciplined(w, steps)
    ensures NeverHarmful(w, steps)
    decreases |steps|
  {
    if steps != [] {
      var s := steps[0];
      StepKeepsInv(w, s);
      if s.Act? {
        ActPairs(w, s.actor, s.choice);
      } else {
        OtherStepPairs(w, s);
      }
      DisciplinedNeverHarmful(Apply(w, s), steps[1..]);
    }
  }

  lemma {:induction false} SafeAtEnd(w: World, steps: seq<Step>)
    requires ValidRun(w, steps) && MoneyThroughout(w, steps)
    ensures MoneySafe(Run(w, steps))
    decreases |steps|
  {
    if steps != [] {
      SafeAtEnd(Apply(w, steps[0]), steps[1..]);
    }
  }

  // ---------------------------------------------------------------- the books

  ghost function Takings(w: World): map<nat, int> {
    map o | o in w.charges && w.charges[o].status == SUCCEEDED :: w.charges[o].amount
  }

  ghost function Revenue(w: World): map<nat, int> {
    map o | o in w.orders && w.orders[o].status == COMPLETED :: w.orders[o].totalAmount
  }

  /** Order by order, and so in total, the provider took exactly what the completed orders cost. */
  lemma BooksBalance(w: World)
    requires Inv(w) && MoneySafe(w) && AllTerminal(w)
    ensures Takings(w) == Revenue(w) && Total(Takings(w)) == Total(Revenue(w))
  {
    forall o | o in w.orders
      ensures o in Takings(w) <==> o in Revenue(w)
      ensures o in Takings(w) ==> Takings(w)[o] == Revenue(w)[o]
    {
      assert OrderOk(o, ViewOf(w, o)) && Fair(ViewOf(w, o));
      SettledBooks(o, ViewOf(w, o));
    }
    assert forall o :: o in Takings(w) ==> o in w.orders;
  }

  lemma SettledBooks(o: OrderId, v: View)
    requires OrderOk(o, v) && Fair(v) && IsTerminal(v.order.status)
    ensures Taken(v) <==> v.order.status == COMPLETED
    ensures Taken(v) ==> v.charge.value.amount == v.order.totalAmount
  {
  }

  /** Under C and M: once all orders are terminal, money taken equals the price of what was completed. */
  lemma EndToEndMoney(w: World, steps: seq<Step>)
    requires Initial(w) && ValidRun(w, steps) && Disciplined(w, steps)
    ensures MoneySafe(Run(w, steps))
    ensures AllTerminal(Run(w, steps)) ==> Total(Takings(Run(w, steps))) == Total(Revenue(Run(w, steps)))
  {
    InitialInv(w);
    DisciplinedNeverHarmful(w, steps);
    MoneyIff(w, steps);
    SafeAtEnd(w, steps);
    RunKeepsInv(w, steps);
    if AllTerminal(Run(w, steps)) {
      BooksBalance(Run(w, steps));
    }
  }
}
