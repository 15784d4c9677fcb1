/** What relays guarantee together, and what only one at a time does. */
module OutboxTheorems {
  import opened Wrappers
  import opened Outbox
  import opened OutboxProtocol

  lemma ReachableInv(w: World, steps: seq<Step>)
    requires Initial(w) && ValidRun(w, steps)
    ensures Inv(Run(w, steps))
  {
    RunKeepsInv(w, steps);
  }

  // ---------------------------------------------------------------- any number of relays

  /**
   * Whatever relays do, crash or overtake each other: once published, an event
   * waits for dispatch, or its job was added at least once, or it used up its
   * attempts. What a row claims is true.
   */
  lemma NeverLost(w: World, front: seq<Step>, e: EventId, order: OrderId, back: seq<Step>)
    requires Initial(w) && ValidRun(w, front) && Enabled(Run(w, front), Publish(e, order))
    requires ValidRun(Apply(Run(w, front), Publish(e, order)), back)
    ensures var end := Run(Apply(Run(w, front), Publish(e, order)), back);
            && e in end.events && end.events[e].order == order
            && (end.events[e].status == NEW || order in end.queued || end.events[e].attempts >= w.limits.maxAttempts)
            && (end.events[e].status == DISPATCHED ==> order in end.queued)
            && (end.events[e].status == FAILED ==> end.events[e].attempts >= w.limits.maxAttempts)
  {
    RunKeepsInv(w, front);
    var published := Apply(Run(w, front), Publish(e, order));
    StepKeepsInv(Run(w, front), Publish(e, order));
    RunKeepsInv(published, back);
    assert EventOk(Run(published, back), e);
  }

  /** A published event can be claimed at once. */
  lemma PublishedIsDue(w: World, e: EventId, order: OrderId)
    requires Enabled(w, Publish(e, order))
    ensures var w' := Apply(w, Publish(e, order));
            && e in w'.events && w'.events[e].order == order && Due(w'.events[e], w.limits.claimTimeoutMs, w'.clock)
            && w'.events[e].attempts == 0
  {
  }

  /** From when on a waiting event can be claimed, however its last claim ended. */
  function EligibleFrom(event: Event, claimTimeoutMs: nat): nat {
    if event.claimedAt.Some? && event.nextRetryAt < event.claimedAt.value + claimTimeoutMs
    then event.claimedAt.value + claimTimeoutMs else event.nextRetryAt
  }

  lemma {:induction false} EarliestExists(events: Events, among: set<EventId>, e: EventId, claimTimeoutMs: nat,
                                          now: nat)
    returns (earliest: EventId)
    requires among <= events.Keys && e in among && Due(events[e], claimTimeoutMs, now)
    ensures earliest in among && Due(events[earliest], claimTimeoutMs, now)
    ensures forall f :: f in among && Due(events[f], claimTimeoutMs, now) ==>
              events[earliest].nextRetryAt <= events[f].nextRetryAt
    decreases among
  {
    earliest := e;
    if f :| f in among && Due(events[f], claimTimeoutMs, now) && events[f].nextRetryAt < events[e].nextRetryAt {
      earliest := EarliestExists(events, among - {e}, f, claimTimeoutMs, now);
    }
  }

  /** A waiting event is never stuck: once the clock has passed the bound it is due, and some claim succeeds. */
  lemma NeverStuck(w: World, e: EventId, ms: nat, r: RelayId) returns (earliest: EventId)
    requires e in w.events && w.events[e].status == NEW && r !in w.relays
    ensures var later := Apply(w, Wait(ms));
            && (Due(later.events[e], w.limits.claimTimeoutMs, later.clock)
                <==> w.clock + ms >= EligibleFrom(w.events[e], w.limits.claimTimeoutMs))
            && (w.clock + ms >= EligibleFrom(w.events[e], w.limits.claimTimeoutMs) ==>
                Enabled(later, Claim(r, earliest)))
  {
    earliest := e;
    if w.clock + ms >= EligibleFrom(w.events[e], w.limits.claimTimeoutMs) {
      earliest := EarliestExists(w.events, w.events.Keys, e, w.limits.claimTimeoutMs, w.clock + ms);
    }
  }

  /**
   * DISPATCHED is taken back by exactly one kind of step: the error branch of a relay that
   * still works on the event.
   */
  lemma DispatchedRevertsIff(w: World, s: Step, e: EventId)
    requires Inv(w) && Enabled(w, s) && e in w.events && w.events[e].status == DISPATCHED
    ensures Apply(w, s).events[e].status != DISPATCHED <==> s.Settle? && s.applied && w.relays[s.relay].event == e
  {
  }

  // ---------------------------------------------------------------- one relay at a time

  predicate WorksOn(w: World, r: RelayId, e: EventId) {
    r in w.relays && w.relays[r].event == e
  }

  ghost predicate Idle(w: World, e: EventId) {
    forall r :: !WorksOn(w, r, e)
  }

  /** No event is claimed while another relay is still busy with it. */
  ghost predicate Exclusive(w: World, steps: seq<Step>)
    requires ValidRun(w, steps)
    decreases |steps|
  {
    steps == [] ||
    ((steps[0].Claim? ==> Idle(w, steps[0].event)) && Exclusive(Apply(w, steps[0]), steps[1..]))
  }

  /** Each claim comes at least the backoff of its predecessor after it. */
  ghost predicate Spaced(claims: seq<nat>, backoffMs: nat) {
    forall i :: 0 < i < |claims| ==> claims[i] >= claims[i - 1] + backoffMs * Power(i - 1)
  }

  function LastSettled(w: World, e: EventId): Option<nat> {
    if e in w.settled then Some(w.settled[e]) else None
  }

  /** An event nobody works on; one that waits does so for exactly its backoff from when it was last settled. */
  predicate RestOk(event: Event, claims: seq<nat>, losses: nat, settled: Option<nat>, limits: Limits) {
    && event.attempts <= limits.maxAttempts + losses
    && (event.status == NEW ==> event.attempts < limits.maxAttempts + losses)
    && (event.status == NEW && losses == 0 && claims != [] ==>
          && settled.Some? && claims[|claims| - 1] <= settled.value
          && event.nextRetryAt == settled.value + limits.backoffMs * Power(|claims| - 1))
  }

  /** An event somebody works on. */
  predicate WorkOk(event: Event, claims: seq<nat>, losses: nat, d: Dispatch, limits: Limits, clock: nat) {
    && d.attempts == event.attempts == |claims| && 1 <= event.attempts <= limits.maxAttempts + losses
    && event.status != FAILED && claims[|claims| - 1] <= clock
  }

  ghost predicate RowOk(w: World, e: EventId)
    requires e in w.events
  {
    && w.events[e].attempts == |Times(w.claims, e)|
    && (Count(w.losses, e) == 0 ==> Spaced(Times(w.claims, e), w.limits.backoffMs))
    && (Idle(w, e) ==> RestOk(w.events[e], Times(w.claims, e), Count(w.losses, e), LastSettled(w, e),
                               w.limits))
  }

  ghost predicate HolderOk(w: World, r: RelayId)
    requires r in w.relays
  {
    var e := w.relays[r].event;
    && e in w.events
    && WorkOk(w.events[e], Times(w.claims, e), Count(w.losses, e), w.relays[r], w.limits, w.clock)
    && forall q :: WorksOn(w, q, e) ==> q == r
  }

  ghost predicate OneRelayInv(w: World) {
    && w.limits.Sound()
    && (forall e :: e in w.events ==> RowOk(w, e))
    && (forall r :: r in w.relays ==> HolderOk(w, r))
  }

  /** Steps say something about at most one event. */
  ghost predicate Concerns(w: World, s: Step, e: EventId)
    requires Enabled(w, s)
  {
    match s
    case Publish(f, _) => f == e
    case Wait(_) => false
    case Claim(_, f) => f == e
    case Add(r, _, _) => w.relays[r].event == e
    case Mark(r, _, _) => w.relays[r].event == e
    case Settle(r, _) => w.relays[r].event == e
    case Crash(r) => w.relays[r].event == e
  }

  lemma UnconcernedRow(w: World, s: Step, e: EventId)
    requires Enabled(w, s) && e in w.events && !Concerns(w, s, e) && RowOk(w, e)
    ensures e in Apply(w, s).events && RowOk(Apply(w, s), e)
  {
    var w' := Apply(w, s);
    if Idle(w', e) {
      forall r ensures !WorksOn(w, r, e) {
        assert !WorksOn(w', r, e);
      }
    }
  }

  lemma UnconcernedHolder(w: World, s: Step, r: RelayId)
    requires Enabled(w, s) && r in w.relays && !Concerns(w, s, w.relays[r].event) && HolderOk(w, r)
    ensures r in Apply(w, s).relays && HolderOk(Apply(w, s), r)
  {
    var w' := Apply(w, s);
    forall q | WorksOn(w', q, w.relays[r].event) ensures q == r {
      assert WorksOn(w, q, w.relays[r].event);
    }
  }

  lemma PublishedRow(w: World, e: EventId, order: OrderId)
    requires OneRelayInv(w) && Enabled(w, Publish(e, order))
    ensures RowOk(Apply(w, Publish(e, order)), e)
  {
  }

  lemma ClaimedRow(w: World, r: RelayId, e: EventId)
    requires OneRelayInv(w) && Enabled(w, Claim(r, e)) && Idle(w, e)
    ensures RowOk(Apply(w, Claim(r, e)), e) && HolderOk(Apply(w, Claim(r, e)), r)
  {
    var w' := Apply(w, Claim(r, e));
    assert RowOk(w, e);
    assert WorksOn(w', r, e);
    forall q | WorksOn(w', q, e) ensures q == r {
      assert !WorksOn(w, q, e);
    }
  }

  /** Operations of the relay that works on the event. */
  predicate Works(s: Step) {
    s.Add? || s.Mark? || s.Settle? || s.Crash?
  }

  lemma StillHeld(w: World, s: Step)
    requires OneRelayInv(w) && Enabled(w, s) && Works(s) && s.relay in Apply(w, s).relays
    ensures RowOk(Apply(w, s), w.relays[s.relay].event) && HolderOk(Apply(w, s), s.relay)
  {
    var w', e := Apply(w, s), w.relays[s.relay].event;
    assert HolderOk(w, s.relay) && RowOk(w, e);
    assert WorksOn(w', s.relay, e);
    forall q | WorksOn(w', q, e) ensures q == s.relay {
      assert WorksOn(w, q, e);
    }
  }

  lemma LetGo(w: World, s: Step)
    requires OneRelayInv(w) && Enabled(w, s) && Works(s) && s.relay !in Apply(w, s).relays
    ensures RowOk(Apply(w, s), w.relays[s.relay].event)
  {
    assert HolderOk(w, s.relay) && RowOk(w, w.relays[s.relay].event);
  }

  lemma ConcernedRow(w: World, s: Step, e: EventId)
    requires OneRelayInv(w) && Enabled(w, s) && Concerns(w, s, e) && (s.Claim? ==> Idle(w, e))
    ensures e in Apply(w, s).events ==> RowOk(Apply(w, s), e)
  {
    if s.Publish? {
      PublishedRow(w, e, s.order);
    } else if s.Claim? {
      ClaimedRow(w, s.relay, e);
    } else if Works(s) {
      if s.relay in Apply(w, s).relays {
        StillHeld(w, s);
      } else {
        LetGo(w, s);
      }
    }
  }

  lemma ConcernedHolder(w: World, s: Step, r: RelayId)
    requires OneRelayInv(w) && Enabled(w, s) && r in Apply(w, s).relays && (s.Claim? ==> Idle(w, s.event))
    requires Concerns(w, s, Apply(w, s).relays[r].event)
    ensures HolderOk(Apply(w, s), r)
  {
    assert r in w.relays ==> HolderOk(w, r);
    if s.Claim? {
      ClaimedRow(w, s.relay, s.event);
      assert WorksOn(Apply(w, s), r, s.event);
    } else if Works(s) {
      assert HolderOk(w, s.relay);
      assert WorksOn(w, r, w.relays[s.relay].event);
      StillHeld(w, s);
    }
  }

  lemma StepKeepsOneRelayInv(w: World, s: Step)
    requires OneRelayInv(w) && Enabled(w, s) && (s.Claim? ==> Idle(w, s.event))
    ensures OneRelayInv(Apply(w, s))
  {
    var w' := Apply(w, s);
    forall e | e in w'.events ensures RowOk(w', e) {
      if Concerns(w, s, e) {
        ConcernedRow(w, s, e);
      } else {
        UnconcernedRow(w, s, e);
      }
    }
    forall r | r in w'.relays ensures HolderOk(w', r) {
      if Concerns(w, s, w'.relays[r].event) {
        ConcernedHolder(w, s, r);
      } else {
        UnconcernedHolder(w, s, r);
      }
    }
  }

  lemma {:induction false} ExclusiveRun(w: World, steps: seq<Step>)
    requires OneRelayInv(w) && ValidRun(w, steps) && Exclusive(w, steps)
    ensures OneRelayInv(Run(w, steps)) && Run(w, steps).limits == w.limits
    decreases |steps|
  {
    if steps != [] {
      StepKeepsOneRelayInv(w, steps[0]);
      ExclusiveRun(Apply(w, steps[0]), steps[1..]);
    }
  }

  /** Doubling waits add up: the k-th claim (counting from zero) is far behind the first. */
  lemma {:induction false} WaitsAddUp(claims: seq<nat>, backoffMs: nat, k: nat)
    requires Spaced(claims, backoffMs) && k < |claims|
    ensures claims[k] >= claims[0] + backoffMs * (Power(k) - 1)
  {
    if k > 0 {
      WaitsAddUp(claims, backoffMs, k - 1);
      assert claims[k] >= claims[k - 1] + backoffMs * Power(k - 1);
      assert backoffMs * (Power(k) - 1) == backoffMs * (Power(k - 1) - 1) + backoffMs * Power(k - 1);
    }
  }

  /**
   * With one relay at a time an event is tried at most `maxAttempts` times plus
   * once per dispatch that ended without a word. If every dispatch ended
   * properly it is declared dead after exactly `maxAttempts` tries, and each
   * try waited for the doubled backoffs before it.
   */
  lemma DispatchBounds(w: World, steps: seq<Step>, e: EventId)
    requires Initial(w) && ValidRun(w, steps) && Exclusive(w, steps) && e in Run(w, steps).events
    ensures var end := Run(w, steps);
            var claims, losses := Times(end.claims, e), Count(end.losses, e);
            && end.events[e].attempts == |claims| <= w.limits.maxAttempts + losses
            && (end.events[e].status == FAILED && losses == 0 ==> |claims| == w.limits.maxAttempts)
            && (losses == 0 ==> forall k :: 0 <= k < |claims| ==>
                  claims[k] >= claims[0] + w.limits.backoffMs * (Power(k) - 1))
  {
    ExclusiveRun(w, steps);
    ReachableInv(w, steps);
    var end := Run(w, steps);
    assert RowOk(end, e) && EventOk(end, e);
    if !Idle(end, e) {
      var r :| WorksOn(end, r, e);
      assert HolderOk(end, r);
    }
    if Count(end.losses, e) == 0 {
      var claims := Times(end.claims, e);
      forall k | 0 <= k < |claims| ensures claims[k] >= claims[0] + w.limits.backoffMs * (Power(k) - 1) {
        WaitsAddUp(claims, w.limits.backoffMs, k);
      }
    }
  }

  /**
   * With one relay at a time and no dispatch lost, a waiting event becomes due
   * exactly the backoff after its last dispatch was settled, and the backoff
   * doubles with every attempt, starting from the configured one.
   */
  lemma WaitsExactly(w: World, steps: seq<Step>, e: EventId)
    requires Initial(w) && ValidRun(w, steps) && Exclusive(w, steps) && e in Run(w, steps).events
    requires var end := Run(w, steps);
             && end.events[e].status == NEW && 1 <= end.events[e].attempts && Count(end.losses, e) == 0 && Idle(end, e)
    ensures var end := Run(w, steps);
            && e in end.settled && end.settled[e] <= end.events[e].nextRetryAt
            && end.events[e].nextRetryAt == end.settled[e] + w.limits.backoffMs * Power(end.events[e].attempts - 1)
    ensures Power(0) == 1 && forall n: nat :: Power(n + 1) == 2 * Power(n)
  {
    ExclusiveRun(w, steps);
    assert RowOk(Run(w, steps), e);
  }

  /** With one relay at a time, an event that is dispatched and let go stays dispatched. */
  lemma {:induction false} DispatchedForGood(w: World, steps: seq<Step>, e: EventId)
    requires OneRelayInv(w) && ValidRun(w, steps) && Exclusive(w, steps)
    requires e in w.events && w.events[e].status == DISPATCHED && Idle(w, e)
    ensures e in Run(w, steps).events && Run(w, steps).events[e] == w.events[e]
    decreases |steps|
  {
    if steps != [] {
      var w' := Apply(w, steps[0]);
      StepKeepsOneRelayInv(w, steps[0]);
      UntouchedWhenIdle(w, steps[0], e);
      DispatchedForGood(w', steps[1..], e);
    }
  }

  lemma UntouchedWhenIdle(w: World, s: Step, e: EventId)
    requires Enabled(w, s) && e in w.events && w.events[e].status == DISPATCHED && Idle(w, e)
    ensures e in Apply(w, s).events && Apply(w, s).events[e] == w.events[e] && Idle(Apply(w, s), e)
  {
    var w' := Apply(w, s);
    if Works(s) {
      assert !WorksOn(w, s.relay, e);
    }
    forall r ensures !WorksOn(w', r, e) {
      assert !WorksOn(w, r, e);
    }
  }

  // ---------------------------------------------------------------- what several relays, or crashes, break

  lemma Before(w: World, s: Step, rest: seq<Step>)
    requires Enabled(w, s) && ValidRun(Apply(w, s), rest)
    ensures ValidRun(w, [s] + rest) && Run(w, [s] + rest) == Run(Apply(w, s), rest)
    ensures (s.Claim? ==> Idle(w, s.event)) && Exclusive(Apply(w, s), rest) ==> Exclusive(w, [s] + rest)
  {
  }

  /** Claimed, dropped, and due again. */
  function DroppedOnce(w: World, e: EventId, r: RelayId): World
    requires r !in w.relays && IsNextDue(w.events, e, w.limits.claimTimeoutMs, w.clock)
  {
    Apply(Apply(Apply(w, Claim(r, e)), Crash(r)), Wait(w.limits.claimTimeoutMs))
  }

  lemma DropAgain(w: World, e: EventId, r: RelayId, rest: seq<Step>) returns (steps: seq<Step>)
    requires w.relays == map[] && IsNextDue(w.events, e, w.limits.claimTimeoutMs, w.clock)
    requires ValidRun(DroppedOnce(w, e, r), rest) && Exclusive(DroppedOnce(w, e, r), rest)
    ensures ValidRun(w, steps) && Exclusive(w, steps) && Run(w, steps) == Run(DroppedOnce(w, e, r), rest)
  {
    var claimed := Apply(w, Claim(r, e));
    var crashed := Apply(claimed, Crash(r));
    Before(crashed, Wait(w.limits.claimTimeoutMs), rest);
    Before(claimed, Crash(r), [Wait(w.limits.claimTimeoutMs)] + rest);
    steps := [Crash(r)] + ([Wait(w.limits.claimTimeoutMs)] + rest);
    Before(w, Claim(r, e), steps);
    steps := [Claim(r, e)] + steps;
  }

  /**
   * The attempt limit is only looked at after a dispatch that failed. A relay
   * that dies after every claim tries any number of times, one at a time, and
   * the event never leaves NEW.
   */
  lemma {:induction false} CrashesNeverRunOut(w: World, e: EventId, r: RelayId, tries: nat) returns (steps: seq<Step>)
    requires w.events.Keys == {e} && w.relays == map[] && Due(w.events[e], w.limits.claimTimeoutMs, w.clock)
    ensures ValidRun(w, steps) && Exclusive(w, steps)
    ensures var end := Run(w, steps);
            && e in end.events && end.events[e].status == NEW
            && end.events[e].attempts == w.events[e].attempts + tries && end.queued == w.queued
    decreases tries
  {
    if tries == 0 {
      steps := [];
    } else {
      var next := DroppedOnce(w, e, r);
      assert next.relays == map[] && next.events == w.events[e := Claimed(w.events[e], w.clock)];
      var rest := CrashesNeverRunOut(next, e, r, tries - 1);
      steps := DropAgain(w, e, r, rest);
    }
  }

  /** A quick relay takes over an expired claim and dispatches the event. */
  function TakenOver(w: World, e: EventId, slow: RelayId, quick: RelayId): World
    requires slow !in w.relays && quick !in w.relays && slow != quick
    requires w.events.Keys == {e} && Due(w.events[e], w.limits.claimTimeoutMs, w.clock)
  {
    var overslept := Apply(Apply(w, Claim(slow, e)), Wait(w.limits.claimTimeoutMs));
    Apply(Apply(Apply(overslept, Claim(quick, e)), Add(quick, true, true)), Mark(quick, true, true))
  }

  /**
   * Without exclusivity the status goes backwards: the slow relay, whose add
   * fails at last, undoes what its successor wrote, and the job is added again.
   */
  lemma StaleRelayReverts(w: World, e: EventId, slow: RelayId, quick: RelayId)
    requires slow !in w.relays && quick !in w.relays && slow != quick
    requires w.events.Keys == {e} && Due(w.events[e], w.limits.claimTimeoutMs, w.clock)
    ensures var dispatched := TakenOver(w, e, slow, quick);
            && dispatched.events[e].status == DISPATCHED && dispatched.events[e].order in dispatched.queued
            && Enabled(dispatched, Add(slow, false, false))
            && Enabled(Apply(dispatched, Add(slow, false, false)), Settle(slow, true))
            && Apply(Apply(dispatched, Add(slow, false, false)), Settle(slow, true)).events[e].status
               == if w.events[e].attempts + 1 < w.limits.maxAttempts then NEW else FAILED
  {
  }
}
