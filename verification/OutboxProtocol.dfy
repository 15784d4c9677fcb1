/**
 * Any number of relays dispatching outbox events to the queue
 * (src/orders/outbox/outbox-relay.service.ts), one operation per step.
 */
module OutboxProtocol {
  import opened Wrappers
  import opened Outbox

  type RelayId = nat

  /** The configuration is validated to be positive throughout (src/config/env.validation.ts:51-68). */
  datatype Limits = Limits(claimTimeoutMs: nat, maxAttempts: nat, backoffMs: nat) {
    predicate Sound() {
      1 <= claimTimeoutMs && 1 <= maxAttempts && 1 <= backoffMs
    }
  }

  /** What a relay does next about the event it claimed: add the job, mark the row dispatched, or handle an error. */
  datatype Stage = Adding | Marking | Failing

  /** `attempts` is the count the claim returned; the row may have moved on since. */
  datatype Dispatch = Dispatch(event: EventId, attempts: nat, stage: Stage)

  /**
   * `queued` are the orders whose job was ever added. `claims` (when each event
   * was claimed), `losses` (dispatches that ended without a word) and `settled`
   * (when the error branch last wrote to the row) are history.
   */
  datatype World = World(
    limits: Limits,
    events: Events,
    queued: set<OrderId>,
    relays: map<RelayId, Dispatch>,
    clock: nat,
    claims: map<EventId, seq<nat>>,
    losses: map<EventId, nat>,
    settled: map<EventId, nat>)

  /** A request can take effect, be answered, both or neither; only one that took effect is answered with success. */
  datatype Step =
    | Publish(event: EventId, order: OrderId)
    | Wait(ms: nat)
    | Claim(relay: RelayId, event: EventId)
    | Add(relay: RelayId, applied: bool, answered: bool)
    | Mark(relay: RelayId, applied: bool, answered: bool)
    | Settle(relay: RelayId, applied: bool)
    | Crash(relay: RelayId)

  function Power(n: nat): (r: nat)
    ensures 1 <= r
  {
    if n == 0 then 1 else 2 * Power(n - 1)
  }

  /** The wait before the next try. */
  function Backoff(limits: Limits, attempts: nat): nat {
    limits.backoffMs * Power(if attempts == 0 then 0 else attempts - 1)
  }

  /** What the error branch of a dispatch writes, given the attempts its claim returned. */
  function Settled(event: Event, attempts: nat, limits: Limits, now: nat): Event {
    if attempts >= limits.maxAttempts then MarkedDead(event) else MarkedRetry(event, now + Backoff(limits, attempts))
  }

  predicate At(w: World, r: RelayId, stage: Stage) {
    r in w.relays && w.relays[r].event in w.events && w.relays[r].stage == stage
  }

  predicate Enabled(w: World, s: Step) {
    match s
    case Publish(e, o) => e !in w.events && forall f :: f in w.events ==> w.events[f].order != o
    case Wait(_) => true
    case Claim(r, e) => r !in w.relays && IsNextDue(w.events, e, w.limits.claimTimeoutMs, w.clock)
    case Add(r, applied, answered) => At(w, r, Adding) && (answered ==> applied)
    case Mark(r, applied, answered) => At(w, r, Marking) && (answered ==> applied)
    case Settle(r, _) => At(w, r, Failing)
    case Crash(r) => r in w.relays
  }

  function Count(m: map<EventId, nat>, e: EventId): nat {
    if e in m then m[e] else 0
  }

  function Times(m: map<EventId, seq<nat>>, e: EventId): seq<nat> {
    if e in m then m[e] else []
  }

  function Lost(w: World, e: EventId): World {
    w.(losses := w.losses[e := Count(w.losses, e) + 1])
  }

  function Gone(w: World, r: RelayId): World {
    w.(relays := w.relays - {r})
  }

  function Moved(w: World, r: RelayId, stage: Stage): World
    requires r in w.relays
  {
    w.(relays := w.relays[r := w.relays[r].(stage := stage)])
  }

  function Put(w: World, e: EventId, event: Event): World {
    w.(events := w.events[e := event])
  }

  function ClaimStep(w: World, r: RelayId, e: EventId): World
    requires e in w.events
  {
    Put(w, e, Claimed(w.events[e], w.clock)).(
      relays := w.relays[r := Dispatch(e, w.events[e].attempts + 1, Adding)],
      claims := w.claims[e := Times(w.claims, e) + [w.clock]])
  }

  function AddStep(w: World, r: RelayId, applied: bool, answered: bool): World
    requires At(w, r, Adding)
  {
    var added := if applied then w.(queued := w.queued + {w.events[w.relays[r].event].order}) else w;
    Moved(added, r, if answered then Marking else Failing)
  }

  function MarkStep(w: World, r: RelayId, applied: bool, answered: bool): World
    requires At(w, r, Marking)
  {
    var e := w.relays[r].event;
    var marked := if applied then Put(w, e, MarkedDispatched(w.events[e])) else w;
    if answered then Gone(marked, r) else Moved(marked, r, Failing)
  }

  function SettleStep(w: World, r: RelayId, applied: bool): World
    requires At(w, r, Failing)
  {
    var e := w.relays[r].event;
    var written := Put(w, e, Settled(w.events[e], w.relays[r].attempts, w.limits, w.clock));
    Gone(if applied then written.(settled := w.settled[e := w.clock]) else Lost(w, e), r)
  }

  function Apply(w: World, s: Step): World
    requires Enabled(w, s)
  {
    match s
    case Publish(e, o) => Put(w, e, NewEvent(o, w.clock)).(claims := w.claims[e := []], losses := w.losses[e := 0])
    case Wait(ms) => w.(clock := w.clock + ms)
    case Claim(r, e) => ClaimStep(w, r, e)
    case Add(r, applied, answered) => AddStep(w, r, applied, answered)
    case Mark(r, applied, answered) => MarkStep(w, r, applied, answered)
    case Settle(r, applied) => SettleStep(w, r, applied)
    case Crash(r) => Gone(Lost(w, w.relays[r].event), r)
  }

  ghost predicate Initial(w: World) {
    && w.events == map[] && w.queued == {} && w.relays == map[] && w.claims == map[] && w.losses == map[]
    && w.settled == map[] && w.limits.Sound()
  }

  ghost predicate ValidRun(w: World, steps: seq<Step>)
    decreases |steps|
  {
    steps == [] || (Enabled(w, steps[0]) && ValidRun(Apply(w, steps[0]), steps[1..]))
  }

  ghost function Run(w: World, steps: seq<Step>): World
    requires ValidRun(w, steps)
    decreases |steps|
  {
    if steps == [] then w else Run(Apply(w, steps[0]), steps[1..])
  }

  /** A run goes on after its last step. */
  lemma {:induction false} RunExtends(w: World, steps: seq<Step>, s: Step)
    requires ValidRun(w, steps) && Enabled(Run(w, steps), s)
    ensures ValidRun(w, steps + [s]) && Run(w, steps + [s]) == Apply(Run(w, steps), s)
    decreases |steps|
  {
    if steps == [] {
      assert [s][1..] == [] && steps + [s] == [s];
    } else {
      RunExtends(Apply(w, steps[0]), steps[1..], s);
      assert (steps + [s])[1..] == steps[1..] + [s];
    }
  }

  /** Every prefix of a run is a run, and what follows is a run from where it ended. */
  lemma {:induction false} RunSplits(w: World, front: seq<Step>, steps: seq<Step>)
    requires ValidRun(w, steps) && front <= steps
    ensures ValidRun(w, front) && ValidRun(Run(w, front), steps[|front|..])
    ensures Run(w, steps) == Run(Run(w, front), steps[|front|..])
    decreases |front|
  {
    if front == [] {
      assert steps[0..] == steps;
    } else {
      RunSplits(Apply(w, steps[0]), front[1..], steps[1..]);
      assert steps[1..][|front[1..]|..] == steps[|front|..];
    }
  }

  // ---------------------------------------------------------------- no event is lost

  ghost predicate EventOk(w: World, e: EventId)
    requires e in w.events
  {
    && (w.events[e].status == DISPATCHED ==> w.events[e].order in w.queued)
    && (w.events[e].status == FAILED ==> w.events[e].attempts >= w.limits.maxAttempts)
    && w.events[e].attempts == |Times(w.claims, e)|
  }

  ghost predicate RelayOk(w: World, r: RelayId)
    requires r in w.relays
  {
    && w.relays[r].event in w.events
    && 1 <= w.relays[r].attempts <= w.events[w.relays[r].event].attempts
    && (w.relays[r].stage == Marking ==> w.events[w.relays[r].event].order in w.queued)
  }

  ghost predicate Inv(w: World) {
    && w.limits.Sound()
    && (forall e :: e in w.events ==> EventOk(w, e))
    && (forall r :: r in w.relays ==> RelayOk(w, r))
    && OneEventPerOrder(w.events)
  }

  /** Events are never deleted or given to another order, attempts are never taken back, jobs are never unadded. */
  ghost predicate Grows(w: World, w': World) {
    && w'.limits == w.limits && w.queued <= w'.queued && w.clock <= w'.clock
    && forall e :: e in w.events ==>
         && e in w'.events && w'.events[e].order == w.events[e].order
         && w.events[e].attempts <= w'.events[e].attempts
  }

  lemma StepGrows(w: World, s: Step)
    requires Inv(w) && Enabled(w, s)
    ensures Grows(w, Apply(w, s))
  {
  }

  lemma EventStays(w: World, w': World, e: EventId)
    requires e in w.events && EventOk(w, e) && e in w'.events && w'.events[e] == w.events[e]
    requires Times(w'.claims, e) == Times(w.claims, e) && w.queued <= w'.queued && w'.limits == w.limits
    ensures EventOk(w', e)
  {
  }

  /** The row a relay works on, after the relay's next operation. */
  lemma WorkKeepsEvent(w: World, s: Step)
    requires Enabled(w, s) && (s.Add? || s.Mark? || s.Settle? || s.Crash?) && RelayOk(w, s.relay)
    requires EventOk(w, w.relays[s.relay].event)
    ensures EventOk(Apply(w, s), w.relays[s.relay].event)
  {
    if s.Add? {
    } else if s.Mark? {
    } else if s.Settle? {
    }
  }

  lemma StepKeepsEvent(w: World, s: Step, e: EventId)
    requires Inv(w) && Enabled(w, s) && e in Apply(w, s).events
    ensures EventOk(Apply(w, s), e)
  {
    assert e in w.events ==> EventOk(w, e);
    if s.Add? || s.Mark? || s.Settle? || s.Crash? {
      assert RelayOk(w, s.relay);
      if w.relays[s.relay].event == e {
        WorkKeepsEvent(w, s);
      } else {
        EventStays(w, Apply(w, s), e);
      }
    } else if !s.Wait? && s.event != e {
      EventStays(w, Apply(w, s), e);
    }
  }

  lemma RelayStays(w: World, w': World, r: RelayId)
    requires Grows(w, w') && r in w.relays && RelayOk(w, r) && r in w'.relays && w'.relays[r] == w.relays[r]
    ensures RelayOk(w', r)
  {
  }

  lemma RelayClaims(w: World, r: RelayId, e: EventId)
    requires Enabled(w, Claim(r, e))
    ensures RelayOk(ClaimStep(w, r, e), r)
  {
  }

  lemma RelayMoves(w: World, s: Step)
    requires Enabled(w, s) && (s.Add? || s.Mark?) && RelayOk(w, s.relay) && s.relay in Apply(w, s).relays
    requires Grows(w, Apply(w, s))
    ensures RelayOk(Apply(w, s), s.relay)
  {
    if s.Add? {
    } else {
    }
  }

  lemma OthersLeaveRelay(w: World, s: Step, r: RelayId)
    requires Enabled(w, s) && r in Apply(w, s).relays
    requires (s.Claim? || s.Add? || s.Mark? || s.Settle? || s.Crash?) ==> s.relay != r
    ensures r in w.relays && Apply(w, s).relays[r] == w.relays[r]
  {
  }

  lemma StepKeepsRelay(w: World, s: Step, r: RelayId)
    requires Inv(w) && Enabled(w, s) && r in Apply(w, s).relays
    ensures RelayOk(Apply(w, s), r)
  {
    StepGrows(w, s);
    if s.Claim? && s.relay == r {
      RelayClaims(w, r, s.event);
    } else if (s.Add? || s.Mark?) && s.relay == r {
      RelayMoves(w, s);
    } else if !(s.Settle? || s.Crash?) || s.relay != r {
      OthersLeaveRelay(w, s, r);
      RelayStays(w, Apply(w, s), r);
    }
  }

  lemma StepKeepsIndex(w: World, s: Step)
    requires OneEventPerOrder(w.events) && Enabled(w, s)
    ensures OneEventPerOrder(Apply(w, s).events)
  {
  }

  lemma StepKeepsInv(w: World, s: Step)
    requires Inv(w) && Enabled(w, s)
    ensures Inv(Apply(w, s))
  {
    var w' := Apply(w, s);
    StepKeepsIndex(w, s);
    forall e | e in w'.events ensures EventOk(w', e) {
      StepKeepsEvent(w, s, e);
    }
    forall r | r in w'.relays ensures RelayOk(w', r) {
      StepKeepsRelay(w, s, r);
    }
  }

  lemma {:induction false} RunKeepsInv(w: World, steps: seq<Step>)
    requires Inv(w) && ValidRun(w, steps)
    ensures Inv(Run(w, steps)) && Grows(w, Run(w, steps))
    decreases |steps|
  {
    if steps != [] {
      StepKeepsInv(w, steps[0]);
      StepGrows(w, steps[0]);
      RunKeepsInv(Apply(w, steps[0]), steps[1..]);
    }
  }
}
