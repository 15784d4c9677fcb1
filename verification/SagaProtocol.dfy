/**
 * The order saga as a protocol: any number of deliveries, sweepers and payment
 * requests act on shared orders, stock, ledger and charges, one database or
 * provider operation at a time, in any interleaving.
 *
 * Every nondeterministic outcome (which stock a ranking query saw, whether the
 * customer was found, whether the card was declined) is a field of the step, so
 * a run is a sequence of steps and `Apply` is a function.
 */
module SagaProtocol {
  import opened Wrappers
  import opened OrderStatuses
  import opened StockLedger
  import opened Charges
  import opened Orders

  type ActorId = nat

  /** Where an actor stands: the operation it performs next. */
  datatype Pc =
    // a delivery of the order's job to a saga worker
    | Redelivery                                   // ended abnormally; the queue will hand it out again
    | Reading                                      // head of the loop in process()
    | PriorLookup(items: seq<Item>)
    | Ranking(items: seq<Item>)
    | Trying(items: seq<Item>, candidates: seq<WarehouseId>)
    | WinnerLookup
    | ReserveCas(warehouse: WarehouseId)
    | OutOfStockCas
    | CustomerLookup(amount: nat)
    | NoCustomerCas
    | PspFind(amount: nat)
    | PspInsert(amount: nat)
    | PspWinner
    | PaymentCas(result: PaymentResult)
    | CompleteCas
    | CompensationRelease
    | CompensatedCas
    | FailedRelease
    // a payment request whose caller died while the provider was still working on it
    | OrphanFind(amount: nat)
    | OrphanInsert(amount: nat)
    // a sweeper handling one claimed order
    | SweepFailCas
    | SweepFailRelease
    | SweepChargeLookup
    | SweepResolve(found: Option<PaymentResult>)
    | SweepComplete
    | SweepRelease
    | SweepCompensatedCas

  predicate IsOrphan(pc: Pc) {
    pc.OrphanFind? || pc.OrphanInsert?
  }

  predicate IsSweeper(pc: Pc) {
    || pc.SweepFailCas? || pc.SweepFailRelease? || pc.SweepChargeLookup? || pc.SweepResolve?
    || pc.SweepComplete? || pc.SweepRelease? || pc.SweepCompensatedCas?
  }

  predicate IsDelivery(pc: Pc) {
    !IsOrphan(pc) && !IsSweeper(pc)
  }

  datatype Actor = Actor(order: OrderId, pc: Pc)

  datatype SweeperConfig = SweeperConfig(staleAfterMs: nat, leaseMs: nat)

  /** `supplied` and `lastClaim` are history: what was ever put on a shelf, when an order was last claimed. */
  datatype World = World(
    config: SweeperConfig,
    orders: Orders,
    inventory: Inventory,
    charges: map<OrderId, Charge>,
    actors: map<ActorId, Actor>,
    clock: nat,
    supplied: Stock,
    lastClaim: map<OrderId, nat>)

  /**
   * What the code does not control; each operation looks only at what it needs.
   * `seen` is the stock a ranking query saw, which need not be that of any one moment.
   */
  datatype Choice = Choice(seen: Stock, customerFound: bool, declined: bool, transactionId: nat)

  datatype Step =
    | AcceptOrder(order: OrderId, items: seq<Item>, nearest: seq<WarehouseId>, totalAmount: nat)
    | TopUp(key: StockKey, quantity: nat)
    | Wait(ms: nat)
    | Deliver(actor: ActorId, order: OrderId)
    | Crash(actor: ActorId, orphan: Option<ActorId>)
    | GiveUp(actor: ActorId)
    | Claim(actor: ActorId, order: OrderId, status: OrderStatus)
    | SweeperStops(actor: ActorId)
    | Act(actor: ActorId, choice: Choice)

  function Lookup<V>(m: map<nat, V>, k: nat): Option<V> {
    if k in m then Some(m[k]) else None
  }

  /** The actor goes on to `next`, or is done. */
  function Move(w: World, a: ActorId, next: Option<Pc>): World
    requires next.Some? ==> a in w.actors
  {
    if next.Some? then w.(actors := w.actors[a := Actor(w.actors[a].order, next.value)])
    else w.(actors := w.actors - {a})
  }

  function Cas(w: World, order: OrderId, args: CasArgs): World {
    w.(orders := Transitioned(w.orders, order, args.from, args.to, args.patch, w.clock))
  }

  function Release(w: World, order: OrderId): World {
    w.(inventory := ReleaseTx(w.inventory, order))
  }

  function NewCharge(amount: nat, c: Choice): Charge {
    Charge(c.transactionId, amount, if c.declined then DECLINED else SUCCEEDED)
  }

  /** Inserting a charge for `order`, unless the unique index already holds one. */
  function Charged(w: World, order: OrderId, amount: nat, c: Choice): World {
    if order in w.charges then w
    else w.(charges := w.charges[order := NewCharge(amount, c)])
  }

  // ---------------------------------------------------------------- compare-and-swap

  datatype CasArgs = CasArgs(from: OrderStatus, to: OrderStatus, patch: TransitionPatch)

  /** What the sweeper writes when the provider declined, or has no charge at all. */
  function UnpaidPatch(found: Option<PaymentResult>): TransitionPatch {
    TransitionPatch(None, found, Some(if found.Some? then PAYMENT_DECLINED else RECONCILED_NO_CHARGE))
  }

  predicate IsCas(pc: Pc) {
    || pc.ReserveCas? || pc.OutOfStockCas? || pc.NoCustomerCas? || pc.PaymentCas? || pc.CompleteCas?
        || pc.CompensatedCas?
    || pc.SweepFailCas? || pc.SweepResolve? || pc.SweepComplete? || pc.SweepCompensatedCas?
  }

  /** The transition an actor attempts. */
  function CasOf(pc: Pc): CasArgs
    requires IsCas(pc)
  {
    match pc
    case ReserveCas(warehouse) => CasArgs(PENDING, STOCK_RESERVED, TransitionPatch(Some(warehouse), None, None))
    case OutOfStockCas => CasArgs(PENDING, FAILED, TransitionPatch(None, None, Some(OUT_OF_STOCK)))
    case NoCustomerCas => CasArgs(STOCK_RESERVED, COMPENSATING, TransitionPatch(None, None, Some(PAYMENT_DECLINED)))
    case PaymentCas(result) =>
      if result.success then CasArgs(STOCK_RESERVED, PAYMENT_AUTHORIZED, TransitionPatch(None, Some(result), None))
      else CasArgs(STOCK_RESERVED, COMPENSATING, TransitionPatch(None, Some(result), Some(PAYMENT_DECLINED)))
    case CompleteCas => CasArgs(PAYMENT_AUTHORIZED, COMPLETED, NO_PATCH)
    case CompensatedCas => CasArgs(COMPENSATING, COMPENSATED, NO_PATCH)
    case SweepFailCas => CasArgs(PENDING, FAILED, TransitionPatch(None, None, Some(RECONCILED_TIMEOUT)))
    case SweepResolve(found) =>
      if found.Some? && found.value.success
      then CasArgs(STOCK_RESERVED, PAYMENT_AUTHORIZED, TransitionPatch(None, found, None))
      else CasArgs(STOCK_RESERVED, COMPENSATING, UnpaidPatch(found))
    case SweepComplete => CasArgs(PAYMENT_AUTHORIZED, COMPLETED, NO_PATCH)
    case SweepCompensatedCas => CasArgs(COMPENSATING, COMPENSATED, NO_PATCH)
  }

  /** A worker re-reads whether it won or lost; a sweeper that lost does nothing further. */
  function AfterCas(pc: Pc, won: bool): Option<Pc>
    requires IsCas(pc)
  {
    match pc
    case CompensatedCas => None
    case SweepFailCas => if won then Some(SweepFailRelease) else None
    case SweepResolve(found) =>
      if !won then None
      else if found.Some? && found.value.success then Some(SweepComplete)
      else Some(SweepRelease)
    case SweepComplete => None
    case SweepCompensatedCas => None
    case _ => Some(Reading)
  }

  function CasStep(w: World, a: ActorId): World
    requires a in w.actors && IsCas(w.actors[a].pc)
  {
    var Actor(o, pc) := w.actors[a];
    Move(Cas(w, o, CasOf(pc)), a, AfterCas(pc, Matches(w.orders, o, CasOf(pc).from)))
  }

  // ---------------------------------------------------------------- stock transactions

  predicate IsRelease(pc: Pc) {
    pc.CompensationRelease? || pc.FailedRelease? || pc.SweepFailRelease? || pc.SweepRelease?
  }

  function AfterRelease(pc: Pc): Option<Pc>
    requires IsRelease(pc)
  {
    match pc
    case CompensationRelease => Some(CompensatedCas)
    case SweepRelease => Some(SweepCompensatedCas)
    case FailedRelease => None
    case SweepFailRelease => None
  }

  function ReleaseStep(w: World, a: ActorId): World
    requires a in w.actors && IsRelease(w.actors[a].pc)
  {
    Move(Release(w, w.actors[a].order), a, AfterRelease(w.actors[a].pc))
  }

  /** One pass of the loop over candidate warehouses, nearest first. */
  function TryStep(w: World, a: ActorId): World
    requires a in w.actors && w.actors[a].pc.Trying?
  {
    var Actor(o, Trying(items, candidates)) := w.actors[a];
    if candidates == [] then Move(w, a, Some(OutOfStockCas))
    else
      match ReserveTx(w.inventory, o, candidates[0], items)
      case Committed(after) => Move(w.(inventory := after), a, Some(ReserveCas(candidates[0])))
      case Duplicate => Move(w, a, Some(WinnerLookup))
      case Short => Move(w, a, Some(Trying(items, candidates[1..])))
  }

  // ---------------------------------------------------------------- the provider

  predicate IsInsert(pc: Pc) {
    pc.PspInsert? || pc.OrphanInsert?
  }

  /** An insert that hits the unique index reads the winner; otherwise the provider answers with its new charge. */
  function AfterInsert(o: OrderId, prior: Option<Charge>, pc: Pc, c: Choice): Option<Pc>
    requires IsInsert(pc)
  {
    if pc.OrphanInsert? then None
    else if prior.Some? then Some(PspWinner)
    else Some(PaymentCas(ToResult(o, NewCharge(pc.amount, c))))
  }

  function InsertStep(w: World, a: ActorId, c: Choice): World
    requires a in w.actors && IsInsert(w.actors[a].pc)
  {
    var Actor(o, pc) := w.actors[a];
    Move(Charged(w, o, pc.amount, c), a, AfterInsert(o, Lookup(w.charges, o), pc, c))
  }

  // ---------------------------------------------------------------- reads

  /** What a delivery does about the document it has just read; None means it returns. */
  function AfterRead(doc: Order): Option<Pc> {
    match doc.status
    case PENDING => Some(PriorLookup(doc.items))
    case STOCK_RESERVED => Some(CustomerLookup(doc.totalAmount))
    case PAYMENT_AUTHORIZED => Some(CompleteCas)
    case COMPENSATING => Some(CompensationRelease)
    case FAILED => Some(FailedRelease)
    case COMPLETED => None
    case COMPENSATED => None
  }

  predicate IsLook(pc: Pc) {
    !IsCas(pc) && !IsRelease(pc) && !IsInsert(pc) && !pc.Trying?
  }

  /** Where an operation that only reads leads, given what the collections hold for the order. */
  function AfterLook(o: OrderId, doc: Option<Order>, reserve: Option<Movement>, charge: Option<Charge>,
                     pc: Pc, c: Choice): Option<Pc>
    requires IsLook(pc)
  {
    match pc
    case Redelivery => Some(Reading)
    case Reading => if doc.Some? then AfterRead(doc.value) else None
    case PriorLookup(items) => if reserve.Some? then Some(ReserveCas(reserve.value.warehouse)) else Some(Ranking(items))
    case Ranking(items) => Some(Trying(items, Candidates(c.seen, if doc.Some? then doc.value.nearest else [], items)))
    case WinnerLookup => if reserve.Some? then Some(ReserveCas(reserve.value.warehouse)) else Some(Redelivery)
    case CustomerLookup(amount) => if c.customerFound then Some(PspFind(amount)) else Some(NoCustomerCas)
    case PspFind(amount) => if charge.Some? then Some(PaymentCas(ToResult(o, charge.value)))
        else Some(PspInsert(amount))
    case PspWinner => if charge.Some? then Some(PaymentCas(ToResult(o, charge.value))) else Some(Redelivery)
    case OrphanFind(amount) => if charge.Some? then None else Some(OrphanInsert(amount))
    case SweepChargeLookup => Some(SweepResolve(if charge.Some? then Some(ToResult(o, charge.value)) else None))
  }

  function LookStep(w: World, a: ActorId, c: Choice): World
    requires a in w.actors && IsLook(w.actors[a].pc)
  {
    var Actor(o, pc) := w.actors[a];
    Move(w, a, AfterLook(o, Lookup(w.orders, o), Lookup(w.inventory.reserves, o), Lookup(w.charges, o), pc, c))
  }

  // ---------------------------------------------------------------- steps

  /** The next operation of an actor, whoever it is. */
  function ActStep(w: World, a: ActorId, c: Choice): World
    requires a in w.actors
  {
    var pc := w.actors[a].pc;
    if IsCas(pc) then CasStep(w, a)
    else if IsRelease(pc) then ReleaseStep(w, a)
    else if IsInsert(pc) then InsertStep(w, a, c)
    else if pc.Trying? then TryStep(w, a)
    else LookStep(w, a, c)
  }

  /** The handler a sweeper runs on an order claimed in this status. */
  function SweepStart(status: OrderStatus): Pc
    requires !IsTerminal(status)
  {
    match status
    case PENDING => SweepFailCas
    case STOCK_RESERVED => SweepChargeLookup
    case PAYMENT_AUTHORIZED => SweepComplete
    case COMPENSATING => SweepRelease
  }

  /** What survives of a worker that dies: nothing, or the payment request it had sent. */
  function Remains(pc: Pc): Option<Pc> {
    match pc
    case PspFind(amount) => Some(OrphanFind(amount))
    case PspInsert(amount) => Some(OrphanInsert(amount))
    case _ => None
  }

  function CrashStep(w: World, a: ActorId, orphan: Option<ActorId>): World
    requires a in w.actors && (orphan.Some? ==> Remains(w.actors[a].pc).Some?)
  {
    var o := w.actors[a].order;
    var left := if orphan.Some?
                then w.(actors := w.actors[orphan.value := Actor(o, Remains(w.actors[a].pc).value)])
                else w;
    left.(actors := left.actors[a := Actor(o, Redelivery)])
  }

  /** A sweeper takes the lease on an order and starts its handler. */
  function ClaimStep(w: World, a: ActorId, o: OrderId): World
    requires o in w.orders && !IsTerminal(w.orders[o].status)
  {
    w.(orders := w.orders[o := Claimed(w.orders[o], w.config.leaseMs, w.clock)],
       actors := w.actors[a := Actor(o, SweepStart(w.orders[o].status))],
       lastClaim := w.lastClaim[o := w.clock])
  }

  predicate Enabled(w: World, s: Step) {
    match s
    case AcceptOrder(o, _, _, _) => o !in w.orders
    case TopUp(_, _) => true
    case Wait(_) => true
    case Deliver(a, _) => a !in w.actors
    case Crash(a, orphan) =>
      && a in w.actors && IsDelivery(w.actors[a].pc)
      && (orphan.Some? ==> orphan.value !in w.actors && Remains(w.actors[a].pc).Some?)
    case GiveUp(a) => a in w.actors && w.actors[a].pc == Redelivery
    case Claim(a, o, status) =>
      a !in w.actors && !IsTerminal(status) && IsOldestClaimable(w.orders, o, status, w.config.staleAfterMs, w.clock)
    case SweeperStops(a) => a in w.actors && !IsDelivery(w.actors[a].pc)
    case Act(a, _) => a in w.actors
  }

  function Apply(w: World, s: Step): World
    requires s.Crash? || s.Act? ==> s.actor in w.actors
    requires s.Crash? && s.orphan.Some? ==> Remains(w.actors[s.actor].pc).Some?
    requires s.Claim? ==> s.order in w.orders && !IsTerminal(w.orders[s.order].status)
  {
    match s
    case AcceptOrder(o, items, nearest, total) => w.(orders := w.orders[o := NewOrder(items, nearest, total, w.clock)])
    case TopUp(key, quantity) =>
      w.(inventory := w.inventory.(stock := AddStock(w.inventory.stock, key, quantity)),
         supplied := AddStock(w.supplied, key, quantity))
    case Wait(ms) => w.(clock := w.clock + ms)
    case Deliver(a, o) => w.(actors := w.actors[a := Actor(o, Reading)])
    case Crash(a, orphan) => CrashStep(w, a, orphan)
    case GiveUp(a) => Move(w, a, None)
    case Claim(a, o, status) => ClaimStep(w, a, o)
    case SweeperStops(a) => Move(w, a, None)
    case Act(a, c) => ActStep(w, a, c)
  }

  /** A shop that has not sold anything yet. */
  ghost predicate Initial(w: World) {
    && w.orders == map[] && w.charges == map[] && w.actors == map[] && w.lastClaim == map[]
    && w.inventory == Inventory(w.supplied, map[], map[])
    && forall key :: key in w.supplied ==> 0 <= w.supplied[key]
  }

  ghost predicate ValidRun(w: World, steps: seq<Step>)
    decreases |steps|
  {
    steps == [] || (Enabled(w, steps[0]) && ValidRun(Apply(w, steps[0]), steps[1..]))
  }

  ghost function Run(w: World, steps: seq<Step>): World
    requires ValidRun(w, steps)
    decreases |steps|
  {
    if steps == [] then w else Run(Apply(w, steps[0]), steps[1..])
  }

  lemma RunOfOne(w: World, s: Step)
    requires Enabled(w, s)
    ensures ValidRun(w, [s]) && Run(w, [s]) == Apply(w, s)
  {
    var w' := Apply(w, s);
    assert [s][1..] == [];
    assert ValidRun(w', []) && Run(w', []) == w';
  }

  /** Runs compose. */
  lemma {:induction false} RunAppend(w: World, front: seq<Step>, back: seq<Step>)
    requires ValidRun(w, front) && ValidRun(Run(w, front), back)
    ensures ValidRun(w, front + back) && Run(w, front + back) == Run(Run(w, front), back)
    decreases |front|
  {
    if front == [] {
      assert front + back == back;
    } else {
      RunAppend(Apply(w, front[0]), front[1..], back);
      assert (front + back)[1..] == front[1..] + back;
    }
  }
}
