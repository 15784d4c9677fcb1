/** Outbox rows and the atomic updates of src/orders/outbox/outbox.repository.ts. */
module Outbox {
  import opened Wrappers

  type EventId = nat
  type OrderId = nat

  datatype EventStatus = NEW | DISPATCHED | FAILED

  /** An ORDER_CREATED row; `order` is its aggregate. */
  datatype Event = Event(
    order: OrderId,
    status: EventStatus,
    attempts: nat,
    nextRetryAt: nat,
    claimedAt: Option<nat>)

  type Events = map<EventId, Event>

  function NewEvent(order: OrderId, now: nat): Event {
    Event(order, NEW, 0, now, None)
  }

  /** Waiting for dispatch, past its backoff, and not under a claim that is still fresh. */
  predicate Due(event: Event, claimTimeoutMs: nat, now: nat) {
    && event.status == NEW && event.nextRetryAt <= now
    && (event.claimedAt == None || event.claimedAt.value + claimTimeoutMs <= now)
  }

  /** The row the claim's sort picks. */
  predicate IsNextDue(events: Events, id: EventId, claimTimeoutMs: nat, now: nat) {
    && id in events && Due(events[id], claimTimeoutMs, now)
    && forall e :: e in events && Due(events[e], claimTimeoutMs, now) ==>
        events[id].nextRetryAt <= events[e].nextRetryAt
  }

  /** A claim burns an attempt whatever becomes of it. */
  function Claimed(event: Event, now: nat): Event {
    event.(claimedAt := Some(now), attempts := event.attempts + 1)
  }

  /** The claim stays on the row. */
  function MarkedDispatched(event: Event): Event {
    event.(status := DISPATCHED)
  }

  function MarkedRetry(event: Event, nextRetryAt: nat): Event {
    event.(status := NEW, nextRetryAt := nextRetryAt, claimedAt := None)
  }

  function MarkedDead(event: Event): Event {
    event.(status := FAILED, claimedAt := None)
  }

  /** The unique index on (aggregate, type): one ORDER_CREATED event per order. */
  ghost predicate OneEventPerOrder(events: Events) {
    forall e, f :: e in events && f in events && events[e].order == events[f].order ==> e == f
  }

  class OutboxRepository {
    var events: Events

    constructor ()
      ensures events == map[]
    {
      events := map[];
    }

    /** Claims the due row whose retry time is the earliest, if any row is due. */
    method ClaimNext(claimTimeoutMs: nat, now: nat) returns (claimed: Option<EventId>)
      modifies this
      ensures claimed == None ==>
                events == old(events) && forall e :: e in old(events) ==> !Due(old(events)[e], claimTimeoutMs, now)
      ensures claimed.Some? ==>
                && IsNextDue(old(events), claimed.value, claimTimeoutMs, now)
                && var found := old(events)[claimed.value];
                   events == old(events)[claimed.value :=
                     found.(claimedAt := Some(now), attempts := found.attempts + 1)]
    {
      var unseen := events.Keys;
      claimed := None;
      while unseen != {}
        invariant unseen <= events.Keys && events == old(events)
        invariant claimed == None ==> forall e :: e in events.Keys - unseen ==> !Due(events[e], claimTimeoutMs, now)
        invariant claimed.Some? ==>
                    && claimed.value in events && Due(events[claimed.value], claimTimeoutMs, now)
                    && forall e :: e in events.Keys - unseen && Due(events[e], claimTimeoutMs, now) ==>
                         events[claimed.value].nextRetryAt <= events[e].nextRetryAt
        decreases |unseen|
      {
        var e :| e in unseen;
        if Due(events[e], claimTimeoutMs, now)
           && (claimed == None || events[e].nextRetryAt < events[claimed.value].nextRetryAt) {
          claimed := Some(e);
        }
        unseen := unseen - {e};
      }
      if claimed.Some? {
        events := events[claimed.value := Claimed(events[claimed.value], now)];
      }
    }

    method MarkDispatched(id: EventId)
      modifies this
      ensures events == if id in old(events) then old(events)[id := old(events)[id].(status := DISPATCHED)]
                else old(events)
    {
      if id in events {
        events := events[id := events[id].(status := DISPATCHED)];
      }
    }

    method MarkRetry(id: EventId, backoffMs: nat, now: nat)
      modifies this
      ensures events == if id in old(events)
                then old(events)[id := old(events)[id].(status := NEW, nextRetryAt := now + backoffMs,
                                                       claimedAt := None)]
                else old(events)
    {
      if id in events {
        events := events[id := events[id].(status := NEW, nextRetryAt := now + backoffMs, claimedAt := None)];
      }
    }

    method MarkDead(id: EventId)
      modifies this
      ensures events == if id in old(events)
                then old(events)[id := old(events)[id].(status := FAILED, claimedAt := None)]
                else old(events)
    {
      if id in events {
        events := events[id := events[id].(status := FAILED, claimedAt := None)];
      }
    }
  }
}
