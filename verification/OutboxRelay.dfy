/**
 * The relay of src/orders/outbox/outbox-relay.service.ts, executed while other
 * relays interfere and requests fail in every way they can.
 */
module OutboxRelays {
  import opened Wrappers
  import opened Outbox
  import opened OutboxProtocol

  /** What becomes of one request: it works, it works but the answer is lost, or it never takes effect. */
  datatype Reply = Done | Unanswered | Refused

  /** The step is not taken by this relay. */
  predicate NotBy(s: Step, me: RelayId) {
    (s.Claim? || s.Add? || s.Mark? || s.Settle? || s.Crash?) ==> s.relay != me
  }

  lemma NotByKeepsRelay(w: World, s: Step, me: RelayId)
    requires Enabled(w, s) && NotBy(s, me)
    ensures me in Apply(w, s).relays <==> me in w.relays
    ensures me in w.relays ==> Apply(w, s).relays[me] == w.relays[me]
  {
  }

  /** What follows when these steps are taken in turn, except those that are not possible or are up to this relay. */
  function Played(w: World, steps: seq<Step>, me: RelayId): World {
    if steps == [] then w
    else
      var so, s := Played(w, steps[..|steps| - 1], me), steps[|steps| - 1];
      if Enabled(so, s) && NotBy(s, me) then Apply(so, s) else so
  }

  /** An event due before was claimed once and is not due any more. */
  predicate ClaimedOnce(before: Event, after: Event, claimTimeoutMs: nat, now: nat) {
    && after.order == before.order && after.attempts == before.attempts + 1
    && Due(before, claimTimeoutMs, now) && !Due(after, claimTimeoutMs, now)
  }

  /** Every event is as before, or was due and has been claimed exactly once. */
  ghost predicate Touched(before: Events, after: Events, claimTimeoutMs: nat, now: nat) {
    && after.Keys == before.Keys
    && forall e :: e in before ==> after[e] == before[e] || ClaimedOnce(before[e], after[e], claimTimeoutMs, now)
  }

  /** Marking one row, which may or may not have reached it when no answer came. */
  ghost predicate Marked(before: Events, after: Events, e: EventId, answered: bool) {
    && e in before
    && (after == before[e := MarkedDispatched(before[e])] || (!answered && after == before))
  }

  /** Dispatches that a relay saw through to the end: it was told that the row is marked. */
  function Confirmed(steps: seq<Step>, me: RelayId): nat {
    if steps == [] then 0
    else
      var s := steps[|steps| - 1];
      Confirmed(steps[..|steps| - 1], me) + if s.Mark? && s.relay == me && s.answered then 1 else 0
  }

  lemma OneMoreStep(steps: seq<Step>, s: Step, me: RelayId)
    ensures Confirmed(steps + [s], me) == Confirmed(steps, me) + if s.Mark? && s.relay == me && s.answered then 1 else 0
  {
    assert (steps + [s])[..|steps|] == steps;
  }

  class OutboxBackend {
    const repo: OutboxRepository
    const limits: Limits
    const schedule: nat -> seq<Step>
    const replies: nat -> Reply
    var queued: set<OrderId>
    var relays: map<RelayId, Dispatch>
    var clock: nat
    var claims: map<EventId, seq<nat>>
    var losses: map<EventId, nat>
    var settled: map<EventId, nat>
    var ticks: nat
    ghost const start: World
    ghost var trace: seq<Step>

    constructor (limits: Limits, schedule: nat -> seq<Step>, replies: nat -> Reply)
      requires limits.Sound()
      ensures Valid() && fresh(repo) && Initial(Snapshot())
      ensures this.limits == limits && this.schedule == schedule && this.replies == replies
    {
      repo := new OutboxRepository();
      this.limits, this.schedule, this.replies := limits, schedule, replies;
      queued, relays, clock, claims, losses, settled, ticks := {}, map[], 0, map[], map[], map[], 0;
      start, trace := World(limits, map[], {}, map[], 0, map[], map[], map[]), [];
    }

    function Footprint(): set<object> {
      {this, repo}
    }

    function Snapshot(): World
      reads Footprint()
    {
      World(limits, repo.events, queued, relays, clock, claims, losses, settled)
    }

    /** What has happened so far is a run of the protocol. */
    ghost predicate Valid()
      reads Footprint()
    {
      Initial(start) && ValidRun(start, trace) && Run(start, trace) == Snapshot()
    }

    /** No other relay acts and the clock stands still. */
    ghost predicate Quiet() {
      forall k :: schedule(k) == []
    }

    /** Every request is answered. */
    ghost predicate Healthy() {
      forall k :: replies(k) == Done
    }

    lemma ValidImpliesInv()
      requires Valid()
      ensures Inv(Snapshot())
    {
      RunKeepsInv(start, trace);
    }

    /** Since any earlier moment events, attempts and queued jobs have only been added. */
    lemma Since(earlier: seq<Step>)
      requires Valid() && earlier <= trace
      ensures ValidRun(start, earlier) && Grows(Run(start, earlier), Snapshot())
    {
      RunSplits(start, earlier, trace);
      RunKeepsInv(start, earlier);
      RunKeepsInv(Run(start, earlier), trace[|earlier|..]);
    }

    /** Appends to the run a step that has just been performed. */
    ghost method Record(s: Step)
      requires Initial(start) && ValidRun(start, trace) && Enabled(Run(start, trace), s)
      requires Snapshot() == Apply(Run(start, trace), s)
      modifies this`trace
      ensures Valid() && trace == old(trace) + [s]
    {
      RunExtends(start, trace, s);
      trace := trace + [s];
    }

    method TakeStep(s: Step)
      requires Valid() && Enabled(Snapshot(), s)
      modifies Footprint()
      ensures Valid() && trace == old(trace) + [s] && Snapshot() == Apply(old(Snapshot()), s) && ticks == old(ticks)
    {
      var w := Apply(Snapshot(), s);
      repo.events := w.events;
      queued, relays, clock, claims, losses, settled := w.queued, w.relays, w.clock, w.claims, w.losses, w.settled;
      Record(s);
    }

    /** Whatever the others do before the next operation of relay `me`, and how that operation will fare. */
    method Interfere(me: RelayId) returns (reply: Reply)
      requires Valid()
      modifies Footprint()
      ensures Valid() && old(trace) <= trace
      ensures me in relays <==> me in old(relays)
      ensures me in relays ==> relays[me] == old(relays)[me]
      ensures Quiet() ==> Snapshot() == old(Snapshot())
      ensures Snapshot() == Played(old(Snapshot()), schedule(old(ticks)), me) && reply == replies(old(ticks))
      ensures Healthy() ==> reply == Done
      ensures Confirmed(trace, me) == old(Confirmed(trace, me))
    {
      reply := replies(ticks);
      var steps := schedule(ticks);
      ticks := ticks + 1;
      for i := 0 to |steps|
        invariant Valid() && old(trace) <= trace
        invariant me in relays <==> me in old(relays)
        invariant me in relays ==> relays[me] == old(relays)[me]
        invariant Quiet() ==> Snapshot() == old(Snapshot())
        invariant Confirmed(trace, me) == old(Confirmed(trace, me))
        invariant Snapshot() == Played(old(Snapshot()), steps[..i], me)
      {
        assert steps[..i + 1][..i] == steps[..i];
        if Enabled(Snapshot(), steps[i]) && NotBy(steps[i], me) {
          NotByKeepsRelay(Snapshot(), steps[i], me);
          OneMoreStep(trace, steps[i], me);
          TakeStep(steps[i]);
        }
      }
      assert steps[..|steps|] == steps;
    }

    /** The claim itself. */
    method ClaimRow(me: RelayId) returns (claimed: Option<Dispatch>)
      requires Valid() && me !in relays
      modifies Footprint()
      ensures Valid() && old(trace) <= trace && clock == old(clock) && queued == old(queued)
      ensures Confirmed(trace, me) == old(Confirmed(trace, me))
      ensures claimed == None ==>
                && Snapshot() == old(Snapshot())
                && forall e :: e in repo.events ==> !Due(repo.events[e], limits.claimTimeoutMs, clock)
      ensures claimed.Some? ==>
                var d := claimed.value;
                && relays == old(relays)[me := d] && d.stage == Adding
                && IsNextDue(old(repo.events), d.event, limits.claimTimeoutMs, clock)
                && repo.events == old(repo.events)[d.event := Claimed(old(repo.events)[d.event], clock)]
                && d.attempts == repo.events[d.event].attempts
    {
      var next := repo.ClaimNext(limits.claimTimeoutMs, clock);
      if next == None {
        return None;
      }
      var e := next.value;
      var d := Dispatch(e, repo.events[e].attempts, Adding);
      relays, claims := relays[me := d], claims[e := Times(claims, e) + [clock]];
      OneMoreStep(trace, Claim(me, e), me);
      Record(Claim(me, e));
      return Some(d);
    }

    /** Claims the next due event for relay `me`. */
    method ClaimNext(me: RelayId) returns (r: Outcome<Option<Dispatch>>)
      requires Valid() && me !in relays
      modifies Footprint()
      ensures Valid() && old(trace) <= trace
      ensures !(r.Returned? && r.value.Some?) ==> me !in relays
      ensures r.Returned? && r.value.Some? ==>
                At(Snapshot(), me, Adding) && relays[me] == r.value.value
                    && relays[me].attempts == repo.events[relays[me].event].attempts
      ensures Quiet() && r.Returned? && r.value.Some? ==>
                var e := relays[me].event;
                && IsNextDue(old(repo.events), e, limits.claimTimeoutMs, clock)
                && repo.events == old(repo.events)[e := Claimed(old(repo.events)[e], clock)]
      ensures Quiet() && r == Returned(None) ==>
                repo.events == old(repo.events) && forall e :: e in repo.events ==>
                    !Due(repo.events[e], limits.claimTimeoutMs, clock)
      ensures Quiet() && r.Threw? ==> Touched(old(repo.events), repo.events, limits.claimTimeoutMs, clock)
      ensures Quiet() ==> clock == old(clock)
      ensures Healthy() ==> r.Returned?
      ensures Confirmed(trace, me) == old(Confirmed(trace, me))
    {
      var reply := Interfere(me);
      if reply == Refused {
        return Threw;
      }
      ValidImpliesInv();
      var claimed := ClaimRow(me);
      if reply == Done {
        return Returned(claimed);
      }
      if claimed.Some? {
        // The row is claimed, but nobody knows.
        OneMoreStep(trace, Crash(me), me);
        TakeStep(Crash(me));
      }
      return Threw;
    }

    /** Adds the job of the claimed order to the queue. */
    method AddJob(me: RelayId) returns (ok: bool)
      requires Valid() && At(Snapshot(), me, Adding)
      modifies Footprint()
      ensures Valid() && old(trace) <= trace && At(Snapshot(), me, if ok then Marking else Failing)
      ensures relays[me] == old(relays)[me].(stage := if ok then Marking else Failing)
      ensures ok ==> repo.events[relays[me].event].order in queued
      ensures Quiet() ==> repo.events == old(repo.events) && clock == old(clock)
      ensures Healthy() ==> ok
      ensures Confirmed(trace, me) == old(Confirmed(trace, me))
    {
      var reply := Interfere(me);
      ok := reply == Done;
      ValidImpliesInv();
      assert RelayOk(Snapshot(), me);
      OneMoreStep(trace, Add(me, reply != Refused, ok), me);
      TakeStep(Add(me, reply != Refused, ok));
    }

    method MarkDispatched(me: RelayId) returns (ok: bool)
      requires Valid() && At(Snapshot(), me, Marking)
      modifies Footprint()
      ensures Valid() && old(trace) <= trace
      ensures ok ==> me !in relays && Dispatched(old(relays)[me].event)
      ensures !ok ==> At(Snapshot(), me, Failing) && relays[me] == old(relays)[me].(stage := Failing)
      ensures Quiet() ==> Marked(old(repo.events), repo.events, old(relays)[me].event, ok) && clock == old(clock)
      ensures Healthy() ==> ok
      ensures Confirmed(trace, me) == old(Confirmed(trace, me)) + if ok then 1 else 0
    {
      var e := relays[me].event;
      var reply := Interfere(me);
      ok := reply == Done;
      ValidImpliesInv();
      assert RelayOk(Snapshot(), me);
      if reply != Refused {
        repo.MarkDispatched(e);
      }
      relays := if ok then relays - {me} else relays[me := relays[me].(stage := Failing)];
      OneMoreStep(trace, Mark(me, reply != Refused, ok), me);
      Record(Mark(me, reply != Refused, ok));
    }

    /** What DISPATCHED on a row means. */
    ghost predicate Dispatched(e: EventId)
      reads Footprint()
    {
      e in repo.events && repo.events[e].status == DISPATCHED && repo.events[e].order in queued
    }

    method WriteSettled(e: EventId, attempts: nat)
      requires e in repo.events
      modifies repo
      ensures repo.events == old(repo.events)[e := Settled(old(repo.events)[e], attempts, limits, clock)]
    {
      if attempts >= limits.maxAttempts {
        repo.MarkDead(e);
      } else {
        repo.MarkRetry(e, Backoff(limits, attempts), clock);
      }
    }

    /** The error branch of a dispatch: give up on the event, or put it back with a doubled wait. */
    method SettleFailure(me: RelayId) returns (r: Outcome<()>)
      requires Valid() && At(Snapshot(), me, Failing)
      modifies Footprint()
      ensures Valid() && old(trace) <= trace && me !in relays
      ensures r.Returned? ==> SettledAs(old(relays)[me])
      ensures Quiet() ==>
                && clock == old(clock)
                && (repo.events == old(repo.events)
                    || repo.events == old(repo.events)[old(relays)[me].event :=
                         Settled(old(repo.events)[old(relays)[me].event], old(relays)[me].attempts, limits, clock)])
      ensures Healthy() ==> r.Returned?
      ensures Confirmed(trace, me) == old(Confirmed(trace, me))
    {
      var reply := Interfere(me);
      ValidImpliesInv();
      assert RelayOk(Snapshot(), me);
      SettleRow(me, reply != Refused);
      return if reply == Done then Returned(()) else Threw;
    }

    /** The write of the error branch, if it takes effect. */
    method SettleRow(me: RelayId, applied: bool)
      requires Valid() && At(Snapshot(), me, Failing) && RelayOk(Snapshot(), me)
      modifies Footprint()
      ensures Valid() && old(trace) <= trace && me !in relays && clock == old(clock)
      ensures applied ==> SettledAs(old(relays)[me])
      ensures var Dispatch(e, attempts, _) := old(relays)[me];
              repo.events == if applied
                then old(repo.events)[e := Settled(old(repo.events)[e], attempts, limits, clock)] else old(repo.events)
      ensures Confirmed(trace, me) == old(Confirmed(trace, me))
    {
      var Dispatch(e, attempts, _) := relays[me];
      if applied {
        WriteSettled(e, attempts);
        settled := settled[e := clock];
      } else {
        losses := losses[e := Count(losses, e) + 1];
      }
      relays := relays - {me};
      OneMoreStep(trace, Settle(me, applied), me);
      Record(Settle(me, applied));
    }

    /** Given up, or waiting out the doubled backoff. */
    ghost predicate SettledAs(d: Dispatch)
      reads Footprint()
    {
      && d.event in repo.events
      && var event := repo.events[d.event];
      if d.attempts >= limits.maxAttempts then event.status == FAILED && event.claimedAt == None
      else
        && event.status == NEW && event.claimedAt == None && 1 <= d.attempts
        && event.nextRetryAt == clock + limits.backoffMs * Power(d.attempts - 1)
    }
  }

  /** Only this event changed, it is the same attempt of the same order, and it is not due. */
  ghost predicate Handled(before: Events, after: Events, e: EventId, claimTimeoutMs: nat, now: nat) {
    && e in before && after.Keys == before.Keys && (forall f :: f in before && f != e ==> after[f] == before[f])
    && after[e].order == before[e].order && after[e].attempts == before[e].attempts
    && !Due(after[e], claimTimeoutMs, now)
  }

  /** A freshly claimed event is not due, however its dispatch ends. */
  lemma DispatchEnds(event: Event, attempts: nat, limits: Limits, now: nat)
    requires limits.Sound() && event.claimedAt == Some(now)
    ensures !Due(event, limits.claimTimeoutMs, now) && !Due(MarkedDispatched(event), limits.claimTimeoutMs, now)
    ensures !Due(Settled(event, attempts, limits, now), limits.claimTimeoutMs, now)
    ensures Settled(MarkedDispatched(event), attempts, limits, now) == Settled(event, attempts, limits, now)
  {
  }

  /** However a dispatch of a freshly claimed event went, it is handled. */
  lemma EndsHandled(before: Events, mid: Events, after: Events, e: EventId, attempts: nat, limits: Limits, now: nat)
    requires limits.Sound() && e in before && before[e].claimedAt == Some(now)
    requires mid == before || mid == before[e := MarkedDispatched(before[e])]
    requires after == mid || after == mid[e := Settled(mid[e], attempts, limits, now)]
    ensures Handled(before, after, e, limits.claimTimeoutMs, now)
  {
    DispatchEnds(before[e], attempts, limits, now);
  }

  lemma ClaimAndHandle(first: Events, before: Events, claimed: Events, after: Events, e: EventId, claimTimeoutMs: nat,
                       now: nat)
    requires Touched(first, before, claimTimeoutMs, now)
    requires e in before && Due(before[e], claimTimeoutMs, now) && claimed == before[e := Claimed(before[e], now)]
    requires Handled(claimed, after, e, claimTimeoutMs, now)
    ensures Touched(first, after, claimTimeoutMs, now)
  {
  }

  function DueSet(events: Events, claimTimeoutMs: nat, now: nat): set<EventId> {
    set e | e in events && Due(events[e], claimTimeoutMs, now)
  }

  /** Every event is as before, or was due and is dispatched now. */
  ghost predicate Drained(before: Events, after: Events, claimTimeoutMs: nat, now: nat) {
    && after.Keys == before.Keys
    && forall e :: e in before ==>
        after[e] == before[e] || (Due(before[e], claimTimeoutMs, now) && after[e].status == DISPATCHED)
  }

  lemma OneDrained(first: Events, before: Events, after: Events, e: EventId, claimTimeoutMs: nat, now: nat)
    requires Drained(first, before, claimTimeoutMs, now) && e in before && Due(before[e], claimTimeoutMs, now)
    requires after == before[e := MarkedDispatched(Claimed(before[e], now))]
    ensures Drained(first, after, claimTimeoutMs, now)
    ensures |DueSet(after, claimTimeoutMs, now)| + 1 == |DueSet(before, claimTimeoutMs, now)|
  {
    assert DueSet(after, claimTimeoutMs, now) == DueSet(before, claimTimeoutMs, now) - {e};
  }

  function Min(a: nat, b: nat): nat {
    if a < b then a else b
  }

  class OutboxRelayService {
    const b: OutboxBackend
    const me: RelayId
    const batchSize: nat
    var running: bool

    constructor (backend: OutboxBackend, me: RelayId, batchSize: nat)
      ensures b == backend && this.me == me && this.batchSize == batchSize && !running
    {
      b, this.me, this.batchSize, running := backend, me, batchSize, false;
    }

    /** Adds the job and marks the row; any error on the way leads to the retry bookkeeping. */
    method Dispatch() returns (r: Outcome<bool>)
      requires b.Valid() && At(b.Snapshot(), me, Adding)
      modifies b.Footprint()
      ensures b.Valid() && old(b.trace) <= b.trace && me !in b.relays
      ensures r == Returned(true) ==> b.Dispatched(old(b.relays)[me].event)
      ensures r == Returned(false) ==> b.SettledAs(old(b.relays)[me])
      ensures b.Quiet() && old(b.repo.events)[old(b.relays)[me].event].claimedAt == Some(b.clock) ==>
                Handled(old(b.repo.events), b.repo.events, old(b.relays)[me].event, b.limits.claimTimeoutMs, b.clock)
      ensures Confirmed(b.trace, me) == old(Confirmed(b.trace, me)) + if r == Returned(true) then 1 else 0
      ensures b.Quiet() ==> b.clock == old(b.clock)
      ensures b.Quiet() && b.Healthy() ==>
                && r == Returned(true)
                && b.repo.events == old(b.repo.events)[old(b.relays)[me].event :=
                     MarkedDispatched(old(b.repo.events)[old(b.relays)[me].event])]
    {
      ghost var before, d := b.repo.events, b.relays[me];
      b.ValidImpliesInv();
      var ok := AddAndMark();
      ghost var mid, quiet := b.repo.events, b.Quiet() && before[d.event].claimedAt == Some(b.clock);
      if ok {
        if quiet {
          EndsHandled(before, mid, mid, d.event, d.attempts, b.limits, b.clock);
        }
        return Returned(true);
      }
      var settled := b.SettleFailure(me);
      if quiet {
        EndsHandled(before, mid, b.repo.events, d.event, d.attempts, b.limits, b.clock);
      }
      return if settled.Threw? then Threw else Returned(false);
    }

    /** The part of a dispatch that errors are caught around. */
    method AddAndMark() returns (ok: bool)
      requires b.Valid() && At(b.Snapshot(), me, Adding)
      modifies b.Footprint()
      ensures b.Valid() && old(b.trace) <= b.trace
      ensures ok ==> me !in b.relays && b.Dispatched(old(b.relays)[me].event)
      ensures !ok ==> At(b.Snapshot(), me, Failing) && b.relays[me] == old(b.relays)[me].(stage := Failing)
      ensures b.Quiet() ==> b.clock == old(b.clock)
      ensures b.Quiet() ==> (!ok && b.repo.events == old(b.repo.events))
                            || Marked(old(b.repo.events), b.repo.events, old(b.relays)[me].event, ok)
      ensures b.Healthy() ==> ok
      ensures Confirmed(b.trace, me) == old(Confirmed(b.trace, me)) + if ok then 1 else 0
    {
      ok := b.AddJob(me);
      if ok {
        ok := b.MarkDispatched(me);
      }
    }

    /** One round of the batch: claim and dispatch one event, or report that none is due. */
    method Round(ghost first: Events) returns (r: Outcome<Option<bool>>)
      requires b.Valid() && me !in b.relays
      requires b.Quiet() ==> Touched(first, b.repo.events, b.limits.claimTimeoutMs, b.clock)
      modifies b.Footprint()
      ensures b.Valid() && old(b.trace) <= b.trace && me !in b.relays
      ensures Confirmed(b.trace, me) == old(Confirmed(b.trace, me)) + if r == Returned(Some(true)) then 1 else 0
      ensures b.Quiet() ==> b.clock == old(b.clock) && Touched(first, b.repo.events, b.limits.claimTimeoutMs, b.clock)
      ensures b.Quiet() && b.Healthy() && Drained(first, old(b.repo.events), b.limits.claimTimeoutMs, b.clock) ==>
                && Drained(first, b.repo.events, b.limits.claimTimeoutMs, b.clock)
                && (r == Returned(Some(true)) || (r == Returned(None) && b.repo.events == old(b.repo.events)))
                && |DueSet(b.repo.events, b.limits.claimTimeoutMs, b.clock)|
                   == if r == Returned(None) then 0
                       else |DueSet(old(b.repo.events), b.limits.claimTimeoutMs, b.clock)| - 1
    {
      ghost var before := b.repo.events;
      var event :- b.ClaimNext(me);
      if event == None {
        if b.Quiet() {
          assert DueSet(b.repo.events, b.limits.claimTimeoutMs, b.clock) == {};
        }
        return Returned(None);
      }
      ghost var claimed, e := b.repo.events, b.relays[me].event;
      var ok := Dispatch();
      if b.Quiet() {
        ClaimAndHandle(first, before, claimed, b.repo.events, e, b.limits.claimTimeoutMs, b.clock);
        if b.Healthy() && Drained(first, before, b.limits.claimTimeoutMs, b.clock) {
          OneDrained(first, before, b.repo.events, e, b.limits.claimTimeoutMs, b.clock);
        }
      }
      return if ok.Threw? then Threw else Returned(Some(ok.value));
    }

    /**
     * One polling pass. A pass that finds another one running does nothing. It
     * reports exactly the dispatches it saw through, whatever fails on the way.
     * With no other relay around it claims no event twice, whatever fails; with
     * nothing failing it dispatches as many due events as the batch allows.
     */
    method Tick() returns (dispatched: nat)
      requires b.Valid() && (!running ==> me !in b.relays)
      modifies this`running, b.Footprint()
      ensures b.Valid() && old(b.trace) <= b.trace && running == old(running) && (!running ==> me !in b.relays)
      ensures Grows(old(b.Snapshot()), b.Snapshot())
      ensures old(running) ==> dispatched == 0 && b.Snapshot() == old(b.Snapshot()) && b.trace == old(b.trace)
      ensures dispatched <= batchSize
      ensures dispatched == Confirmed(b.trace, me) - old(Confirmed(b.trace, me))
      ensures b.Quiet() ==> Touched(old(b.repo.events), b.repo.events, b.limits.claimTimeoutMs, b.clock)
      ensures b.Quiet() && b.Healthy() && !old(running) ==>
                && Drained(old(b.repo.events), b.repo.events, b.limits.claimTimeoutMs, b.clock)
                && var due := |DueSet(old(b.repo.events), b.limits.claimTimeoutMs, b.clock)|;
                && dispatched == Min(batchSize, due)
                && |DueSet(b.repo.events, b.limits.claimTimeoutMs, b.clock)| == due - dispatched
    {
      dispatched := 0;
      if running {
        b.Since(b.trace);
        return;
      }
      running := true;
      ghost var first := b.repo.events;
      var i := 0;
      while i < batchSize
        invariant 0 <= i <= batchSize && dispatched <= i
        invariant b.Valid() && old(b.trace) <= b.trace && me !in b.relays
        invariant dispatched == Confirmed(b.trace, me) - old(Confirmed(b.trace, me))
        invariant b.Quiet() ==>
                  b.clock == old(b.clock) && Touched(first, b.repo.events, b.limits.claimTimeoutMs, b.clock)
        invariant b.Quiet() && b.Healthy() ==>
                    && dispatched == i && Drained(first, b.repo.events, b.limits.claimTimeoutMs, b.clock)
                    && |DueSet(b.repo.events, b.limits.claimTimeoutMs, b.clock)| + i
                        == |DueSet(first, b.limits.claimTimeoutMs, b.clock)|
      {
        var r := Round(first);
        if r.Threw? || r.value == None {
          break;
        }
        if r.value.value {
          dispatched := dispatched + 1;
        }
        i := i + 1;
      }
      running := false;
      b.Since(old(b.trace));
    }
  }
}
