/**
 * Accepting an order (src/orders/orders.service.ts:67-201), executed while
 * other requests interfere and operations fail.
 */
module OrdersServices {
  import opened Wrappers
  import opened AcceptProtocol
  import opened AcceptTheorems
  import F = Fingerprint

  /** How the next operation fares: as it should, with an error, or with one of the two surprises of a transaction. */
  datatype Fate = Fine | Breaks | Restarts | CommitsSilently

  /** One new event, announcing `o`. */
  ghost predicate OneEventMore(before: map<EventId, OrderId>, after: map<EventId, OrderId>, o: OrderId) {
    exists e: EventId :: e !in before && after == before[e := o]
  }

  lemma OthersLeaveRequest(w: World, s: Step, r: RequestId)
    requires Inv(w) && Enabled(w, s) && r in w.requests && s.request != r
    ensures r in Apply(w, s).requests && Apply(w, s).requests[r] == w.requests[r]
  {
    OthersWait(w, s, r);
  }

  /** What follows when these steps are taken in turn, except those that are not possible or are up to this request. */
  function Played(w: World, steps: seq<Step>, r: RequestId): World {
    if steps == [] then w
    else
      var so, s := Played(w, steps[..|steps| - 1], r), steps[|steps| - 1];
      if Enabled(so, s) && s.request != r then Apply(so, s) else so
  }

  class OrderStore {
    const schedule: nat -> seq<Step>
    const fates: nat -> Fate
    const verdicts: nat -> bool
    var rows: map<OrderId, Row>
    var index: map<KeyScope, OrderId>
    var holders: map<KeyScope, RequestId>
    var events: map<EventId, OrderId>
    var requests: map<RequestId, Work>
    var ids: set<OrderId>
    var ticks: nat
    ghost const start: World
    ghost var trace: seq<Step>

    constructor (schedule: nat -> seq<Step>, fates: nat -> Fate, verdicts: nat -> bool)
      ensures Valid() && Initial(Snapshot())
      ensures this.schedule == schedule && this.fates == fates && this.verdicts == verdicts
    {
      this.schedule, this.fates, this.verdicts := schedule, fates, verdicts;
      rows, index, holders, events, requests, ids, ticks := map[], map[], map[], map[], map[], {}, 0;
      start, trace := World(map[], map[], map[], map[], map[], {}), [];
    }

    function Snapshot(): World
      reads this
    {
      World(rows, index, holders, events, requests, ids)
    }

    /** What has happened so far is a run of the protocol. */
    ghost predicate Valid()
      reads this
    {
      Initial(start) && ValidRun(start, trace) && Run(start, trace) == Snapshot()
    }

    /** No other request acts and nothing fails. */
    ghost predicate Calm() {
      (forall k :: schedule(k) == []) && forall k :: fates(k) == Fine
    }

    lemma ValidImpliesInv()
      requires Valid()
      ensures Inv(Snapshot())
    {
      RunKeepsInv(start, trace);
    }

    lemma IndexLeadsToRows()
      requires Valid()
      ensures forall scope :: scope in index ==> index[scope] in rows
    {
      ValidImpliesInv();
    }

    /** What a replay of this submission is told. */
    function ReplayOf(submission: Submission): Option<Answer>
      reads this
    {
      var found := Find(Snapshot(), submission.Scope());
      if found == None then None
      else Some(Resolve(found.value, rows[found.value].fingerprint, submission.Fingerprint()))
    }

    /** The request is about to perform this operation. */
    predicate Stands(r: RequestId, submission: Submission, pc: Pc)
      reads this
    {
      r in requests && requests[r] == Work(submission, pc)
    }

    /** Since any earlier moment orders, events and answers have only been added. */
    lemma Since(earlier: seq<Step>)
      requires Valid() && earlier <= trace
      ensures ValidRun(start, earlier) && Grows(Run(start, earlier), Snapshot())
    {
      RunSplits(start, earlier, trace);
      RunKeepsInv(start, earlier);
      RunKeepsInv(Run(start, earlier), trace[|earlier|..]);
    }

    /** A request that waited for a winner at an earlier moment has written no order. */
    lemma LoserSince(earlier: seq<Step>, r: RequestId)
      requires Valid() && earlier <= trace && ValidRun(start, earlier)
      requires r in Run(start, earlier).requests && Run(start, earlier).requests[r].pc.Awaiting?
      ensures IsLoser(Snapshot(), r)
    {
      RunSplits(start, earlier, trace);
      RunKeepsInv(start, earlier);
      WaitingIsLosing(Run(start, earlier), r);
      RunKeepsLoser(Run(start, earlier), trace[|earlier|..], r);
    }

    /** Appends to the run a step that has just been performed. */
    ghost method Record(s: Step)
      requires Initial(start) && ValidRun(start, trace) && Enabled(Run(start, trace), s)
      requires Snapshot() == Apply(Run(start, trace), s)
      modifies this`trace
      ensures Valid() && trace == old(trace) + [s]
    {
      RunExtends(start, trace, s);
      trace := trace + [s];
    }

    method TakeStep(s: Step)
      requires Valid() && Enabled(Snapshot(), s)
      modifies this
      ensures Valid() && old(trace) <= trace && Snapshot() == Apply(old(Snapshot()), s) && ticks == old(ticks)
    {
      var w := Apply(Snapshot(), s);
      rows, index, holders, events, requests, ids := w.rows, w.index, w.holders, w.events, w.requests, w.ids;
      Record(s);
    }

    /** Whatever the others do before the next operation of request `r`, and how that operation will fare. */
    method Interfere(r: RequestId) returns (fate: Fate)
      requires Valid() && r in requests
      modifies this
      ensures Valid() && old(trace) <= trace && r in requests && requests[r] == old(requests)[r]
      ensures Calm() ==> Snapshot() == old(Snapshot()) && fate == Fine
      ensures Snapshot() == Played(old(Snapshot()), schedule(old(ticks)), r) && fate == fates(old(ticks))
      ensures ticks == old(ticks) + 1
    {
      fate := fates(ticks);
      var steps := schedule(ticks);
      ticks := ticks + 1;
      for i := 0 to |steps|
        invariant Valid() && old(trace) <= trace && r in requests && requests[r] == old(requests)[r]
        invariant Calm() ==> Snapshot() == old(Snapshot())
        invariant ticks == old(ticks) + 1 && Snapshot() == Played(old(Snapshot()), steps[..i], r)
      {
        assert steps[..i + 1][..i] == steps[..i];
        if Enabled(Snapshot(), steps[i]) && steps[i].request != r {
          ValidImpliesInv();
          OthersLeaveRequest(Snapshot(), steps[i], r);
          TakeStep(steps[i]);
        }
      }
      assert steps[..|steps|] == steps;
    }

    /** The operation throws: the error is the answer. */
    method Throw(r: RequestId)
      requires Valid() && At(Snapshot(), r)
      modifies this
      ensures Valid() && old(trace) <= trace && Stands(r, old(requests)[r].submission, Answered(Error))
      ensures ticks == old(ticks)
    {
      TakeStep(Fail(r));
    }

    /** A fresh object id. */
    method NewId() returns (id: nat)
      ensures id !in ids
    {
      var untried := ids;
      id := 0;
      while id in untried
        invariant forall i :: i in ids && i !in untried ==> i < id
        decreases |untried|
      {
        untried := untried - {id};
        id := id + 1;
      }
    }

    method NewEventId() returns (id: nat)
      ensures id !in events
    {
      var untried := events.Keys;
      id := 0;
      while id in untried
        invariant forall i :: i in events && i !in untried ==> i < id
        decreases |untried|
      {
        untried := untried - {id};
        id := id + 1;
      }
    }

    /** The first insert of the transaction: false is the duplicate-key error. */
    method InsertOrder(r: RequestId, submission: Submission, o: OrderId) returns (inserted: bool)
      requires Valid() && Stands(r, submission, Inserting(o))
      modifies this
      ensures Valid() && old(trace) <= trace && Stands(r, submission, if inserted then Holding(o) else Awaiting(0))
      ensures inserted <==> submission.Scope() !in old(index) && submission.Scope() !in old(holders)
      ensures rows == old(rows) && index == old(index) && events == old(events)
    {
      var scope := submission.Scope();
      inserted := scope !in index && scope !in holders;
      if inserted {
        holders, requests := holders[scope := r], requests[r := Work(submission, Holding(o))];
      } else {
        requests := requests[r := Work(submission, Awaiting(0))];
      }
      Record(Insert(r));
    }

    /** The second insert and the commit: order, key and event become visible at once. */
    method CommitBoth(r: RequestId, submission: Submission, o: OrderId, answered: bool)
      requires Valid() && Stands(r, submission, Holding(o))
      modifies this
      ensures Valid() && old(trace) <= trace && Stands(r, submission, if answered then ReadBack(o) else Answered(Error))
      ensures o !in old(rows) && rows == old(rows)[o := Row(submission.Scope(), submission.Fingerprint(), r)]
      ensures OneEventMore(old(events), events, o)
    {
      ValidImpliesInv();
      assert RequestOk(Snapshot(), r);
      NoDuplicateEvent(Snapshot(), r);
      var e := NewEventId();
      var scope := submission.Scope();
      rows := rows[o := Row(scope, submission.Fingerprint(), r)];
      index, holders := index[scope := o], holders - {scope};
      events := events[e := o];
      requests := requests[r := Work(submission, if answered then ReadBack(o) else Answered(Error))];
      Record(Commit(r, e, answered));
    }

    /** What findByIdempotencyKey returns. */
    method FindByIdempotencyKey(scope: KeyScope) returns (found: Option<OrderId>)
      ensures found == Find(Snapshot(), scope)
    {
      found := if scope in index && index[scope] in rows then Some(index[scope]) else None;
    }
  }

  datatype TransactionEnd = Committed | DuplicateKey | Failed

  /** No order was written and no event announced. */
  ghost predicate Untouched(store: OrderStore, rows: map<OrderId, Row>, index: map<KeyScope, OrderId>,
                            events: map<EventId, OrderId>)
    reads store
  {
    store.rows == rows && store.index == index && store.events == events
  }

  /** Exactly this order was written, and exactly one event announces it. */
  ghost predicate Wrote(store: OrderStore, r: RequestId, submission: Submission, o: OrderId,
                        rows: map<OrderId, Row>, events: map<EventId, OrderId>)
    reads store
  {
    && store.rows == rows[o := Row(submission.Scope(), submission.Fingerprint(), r)]
    && OneEventMore(events, store.events, o)
  }

  class OrdersService {
    const store: OrderStore

    constructor (store: OrderStore)
      ensures this.store == store
    {
      this.store := store;
    }

    /** A replay returns the stored order unchanged, unless its content differs. */
    method ResolveReplay(r: RequestId, submission: Submission, o: OrderId, ghost s: Step) returns (answer: Answer)
      requires store.Valid() && o in store.rows && (s == Look(r) || s == Await(r))
      requires Enabled(store.Snapshot(), s) && store.requests[r].submission == submission
      requires Find(store.Snapshot(), submission.Scope()) == Some(o)
      modifies store
      ensures store.Valid() && old(store.trace) <= store.trace && store.Stands(r, submission, Answered(answer))
      ensures Untouched(store, old(store.rows), old(store.index), old(store.events))
      ensures answer == if store.rows[o].fingerprint != submission.Fingerprint() then KeyReused(o) else Accepted(o)
    {
      if store.rows[o].fingerprint != submission.Fingerprint() {
        answer := KeyReused(o);
      } else {
        answer := Accepted(o);
      }
      store.requests := store.requests[r := Work(submission, Answered(answer))];
      store.Record(s);
    }

    /** One read for the winner; None is a miss. */
    method LookForWinner(r: RequestId, submission: Submission, misses: nat) returns (answer: Option<Answer>)
      requires store.Valid() && store.Stands(r, submission, Awaiting(misses))
      modifies store
      ensures store.Valid() && old(store.trace) <= store.trace
      ensures answer.Some? ==> store.Stands(r, submission, Answered(answer.value)) && answer.value != TryAgain
      ensures answer == None ==>
                store.Stands(r, submission, if misses + 1 < READS then Awaiting(misses + 1) else Answered(TryAgain))
      ensures store.Calm() ==> Untouched(store, old(store.rows), old(store.index), old(store.events))
      ensures store.Calm() && submission.Scope() !in store.index ==> answer == None
    {
      var fate := store.Interfere(r);
      if fate == Breaks {
        store.Throw(r);
        return Some(Error);
      }
      var winner := store.FindByIdempotencyKey(submission.Scope());
      if winner.Some? {
        var replayed := ResolveReplay(r, submission, winner.value, Await(r));
        return Some(replayed);
      }
      store.TakeStep(Await(r));
      return None;
    }

    /**
     * The bounded wait for the request that took the key first: five reads with
     * a doubling delay after each miss, 620 milliseconds in all. Whatever comes
     * of it, the waiting request has written nothing.
     */
    method AwaitWinner(r: RequestId, submission: Submission) returns (answer: Answer, waitedMs: nat)
      requires store.Valid() && store.Stands(r, submission, Awaiting(0))
      modifies store
      ensures Awaits(store.trace, r) <= READS && (answer == TryAgain ==> Awaits(store.trace, r) == READS)
      ensures IsLoser(store.Snapshot(), r)
      ensures store.Valid() && old(store.trace) <= store.trace && store.Stands(r, submission, Answered(answer))
      ensures if answer == TryAgain then waitedMs == 620 else waitedMs <= 300
      ensures store.Calm() ==> Untouched(store, old(store.rows), old(store.index), old(store.events))
      ensures store.Calm() && submission.Scope() !in store.index ==> answer == TryAgain
    {
      answer, waitedMs := KeepAsking(r, submission);
      WaitsFiveTimes(store.start, store.trace, r);
      store.LoserSince(old(store.trace), r);
    }

    /** The loop of the wait. */
    method KeepAsking(r: RequestId, submission: Submission) returns (answer: Answer, waitedMs: nat)
      requires store.Valid() && store.Stands(r, submission, Awaiting(0))
      modifies store
      ensures store.Valid() && old(store.trace) <= store.trace && store.Stands(r, submission, Answered(answer))
      ensures if answer == TryAgain then waitedMs == 620 else waitedMs <= 300
      ensures store.Calm() ==> Untouched(store, old(store.rows), old(store.index), old(store.events))
      ensures store.Calm() && submission.Scope() !in store.index ==> answer == TryAgain
    {
      var delayMs := 20;
      waitedMs := 0;
      var attempt := 0;
      while attempt < READS
        invariant 0 <= attempt <= READS && store.Valid() && old(store.trace) <= store.trace
        invariant delayMs == 20 * Doubled(attempt) && waitedMs == delayMs - 20
        invariant store.Stands(r, submission, if attempt < READS then Awaiting(attempt) else Answered(TryAgain))
        invariant store.Calm() ==> Untouched(store, old(store.rows), old(store.index), old(store.events))
      {
        var winner := LookForWinner(r, submission, attempt);
        if winner.Some? {
          DoublingTable(attempt);
          return winner.value, waitedMs;
        }
        waitedMs := waitedMs + delayMs;
        delayMs := delayMs * 2;
        attempt := attempt + 1;
      }
      DoublingTable(READS);
      return TryAgain, waitedMs;
    }

    /** One execution of the transaction; None is a restart. */
    method TryTransaction(r: RequestId, submission: Submission, o: OrderId) returns (end: Option<TransactionEnd>)
      requires store.Valid() && store.Stands(r, submission, Inserting(o))
      modifies store
      ensures store.Valid() && old(store.trace) <= store.trace && Ended(r, submission, o, end)
      ensures store.Calm() ==>
                if submission.Scope() in old(store.index) || submission.Scope() in old(store.holders)
                then end == Some(DuplicateKey) && Untouched(store, old(store.rows), old(store.index), old(store.events))
                else end == Some(Committed) && Wrote(store, r, submission, o, old(store.rows), old(store.events))
    {
      var fate := store.Interfere(r);
      if fate == Breaks {
        store.Throw(r);
        return Some(Failed);
      }
      var inserted := store.InsertOrder(r, submission, o);
      if !inserted {
        return Some(DuplicateKey);
      }
      fate := store.Interfere(r);
      if fate == Breaks || fate == Restarts {
        store.TakeStep(Abort(r, fate == Restarts));
        return if fate == Restarts then None else Some(Failed);
      }
      store.CommitBoth(r, submission, o, fate == Fine);
      return Some(if fate == Fine then Committed else Failed);
    }

    /** Where a transaction leaves its request. */
    ghost predicate Ended(r: RequestId, submission: Submission, o: OrderId, end: Option<TransactionEnd>)
      reads store
    {
      store.Stands(r, submission,
        if end == None then Inserting(o)
        else match end.value
             case Committed => ReadBack(o)
             case DuplicateKey => Awaiting(0)
             case Failed => Answered(Error))
    }

    /** The driver restarts a transaction that met a transient error, but not for ever. */
    method WithTransaction(r: RequestId, submission: Submission, o: OrderId, patience: nat)
      returns (end: TransactionEnd)
      requires store.Valid() && store.Stands(r, submission, Inserting(o))
      modifies store
      ensures store.Valid() && old(store.trace) <= store.trace && Ended(r, submission, o, Some(end))
      ensures store.Calm() && patience > 0 ==>
                if submission.Scope() in old(store.index) || submission.Scope() in old(store.holders)
                then end == DuplicateKey && Untouched(store, old(store.rows), old(store.index), old(store.events))
                else end == Committed && Wrote(store, r, submission, o, old(store.rows), old(store.events))
    {
      for i := 0 to patience
        invariant store.Valid() && old(store.trace) <= store.trace && store.Stands(r, submission, Inserting(o))
        invariant store.Calm() ==> i == 0 && store.Snapshot() == old(store.Snapshot())
      {
        var tried := TryTransaction(r, submission, o);
        if tried.Some? {
          return tried.value;
        }
      }
      store.Throw(r);
      return Failed;
    }

    /**
     * Accepts an order. Whatever interferes, the answer is recorded in a run of
     * the protocol, so all theorems about answers apply to it. Undisturbed, it
     * replays the order this customer placed under this key; if there is none it
     * writes one order and one event, or changes neither: because validation says
     * no, or because another request holds the key.
     */
    method AcceptOrder(r: RequestId, submission: Submission, patience: nat) returns (answer: Answer)
      requires store.Valid() && r !in store.requests && patience > 0
      modifies store
      ensures store.Valid() && old(store.trace) <= store.trace && store.Stands(r, submission, Answered(answer))
      ensures AnswerOk(store.Snapshot(), submission, answer) && Grows(old(store.Snapshot()), store.Snapshot())
      ensures store.Calm() ==> Replayed(old(store.Snapshot()), submission, answer)
      ensures store.Calm() && IsNew(old(store.Snapshot()), submission) ==>
                && Placed(old(store.Snapshot()), r, submission, answer)
                && (answer == Unprocessable <==> !store.verdicts(old(store.ticks) + 2))
    {
      ghost var before := store.Snapshot();
      store.ValidImpliesInv();
      store.TakeStep(Arrive(r, submission));
      answer := Serve(r, submission, patience);
      store.ValidImpliesInv();
      assert RequestOk(store.Snapshot(), r);
      store.Since(old(store.trace));
      if store.Calm() {
        if submission.Scope() in before.index {
          ReplayMeans(before, submission, answer);
        } else {
          PlacedMeans(before, r, submission, answer);
        }
      }
    }

    /** What nobody disturbs, in terms of the unique index; `valid` is the verdict of the validation. */
    ghost predicate Undisturbed(before: World, r: RequestId, submission: Submission, answer: Answer, valid: bool)
      reads store
    {
      var scope := submission.Scope();
      if scope in before.index then
        && before.index[scope] in before.rows && Untouched(store, before.rows, before.index, before.events)
        && answer == Resolve(before.index[scope], before.rows[before.index[scope]].fingerprint,
                             submission.Fingerprint())
      else
        && (answer == Unprocessable <==> !valid)
        && if answer.Accepted? then
             && scope !in before.holders && answer.order !in before.rows
             && Wrote(store, r, submission, answer.order, before.rows, before.events)
           else
             && Untouched(store, before.rows, before.index, before.events)
             && (answer == Unprocessable || (answer == TryAgain && scope in before.holders))
    }

    /** The fast path, or else the slow one. */
    method Serve(r: RequestId, submission: Submission, patience: nat) returns (answer: Answer)
      requires store.Valid() && store.Stands(r, submission, FastPath) && patience > 0
      modifies store
      ensures store.Valid() && old(store.trace) <= store.trace && store.Stands(r, submission, Answered(answer))
      ensures store.Calm() ==>
                Undisturbed(old(store.Snapshot()), r, submission, answer, store.verdicts(old(store.ticks) + 2))
    {
      store.IndexLeadsToRows();
      var fast := LookForReplay(r, submission);
      if fast.Some? {
        answer := fast.value;
      } else {
        answer := PlaceOrder(r, submission, patience);
      }
    }

    /** No order of this customer is stored under this key. */
    ghost predicate IsNew(before: World, submission: Submission) {
      forall o :: !WrittenFor(before, o, submission.body.customer, submission.key)
    }

    /** An order of this customer under this key is what the answer names, accepted exactly for the same content. */
    ghost predicate Replayed(before: World, submission: Submission, answer: Answer)
      reads store
    {
      forall o :: WrittenFor(before, o, submission.body.customer, submission.key) ==>
        && Untouched(store, before.rows, before.index, before.events)
        && (answer == Accepted(o) || answer == KeyReused(o))
        && (F.DistinctProducts(submission.body.items) ==>
              (answer.Accepted? <==>
                F.SameContent(submission.body, before.requests[before.rows[o].author].submission.body)))
    }

    /** One new order of this customer under this key and one event, or nothing at all. */
    ghost predicate Placed(before: World, r: RequestId, submission: Submission, answer: Answer)
      reads store
    {
      if answer.Accepted? then
        && !HeldFor(before, submission.body.customer, submission.key) && answer.order !in before.rows
        && Wrote(store, r, submission, answer.order, before.rows, before.events)
        && WrittenFor(store.Snapshot(), answer.order, submission.body.customer, submission.key)
      else
        && Untouched(store, before.rows, before.index, before.events)
        && (answer == Unprocessable
            || (answer == TryAgain && HeldFor(before, submission.body.customer, submission.key)))
    }

    lemma PlacedMeans(before: World, r: RequestId, submission: Submission, answer: Answer)
      requires Inv(before) && submission.Scope() !in before.index && store.Stands(r, submission, Answered(answer))
      requires if answer.Accepted? then
                 && submission.Scope() !in before.holders && answer.order !in before.rows
                 && Wrote(store, r, submission, answer.order, before.rows, before.events)
               else
                 && Untouched(store, before.rows, before.index, before.events)
                 && (answer == Unprocessable || (answer == TryAgain && submission.Scope() in before.holders))
      ensures IsNew(before, submission) && Placed(before, r, submission, answer) && Replayed(before, submission, answer)
    {
      IndexedByCustomerAndKey(before, submission);
    }

    /** What a replay is told, in terms of what the two requests say. */
    lemma ReplayMeans(before: World, submission: Submission, answer: Answer)
      requires Inv(before) && submission.Scope() in before.index
      requires var o := before.index[submission.Scope()];
               o in before.rows && answer == Resolve(o, before.rows[o].fingerprint, submission.Fingerprint())
      requires Untouched(store, before.rows, before.index, before.events)
      ensures Replayed(before, submission, answer) && !IsNew(before, submission)
    {
      IndexedByCustomerAndKey(before, submission);
      var o := before.index[submission.Scope()];
      assert RowOk(before, o);
      if F.DistinctProducts(submission.body.items) {
        F.SameFingerprintIff(submission.body, before.requests[before.rows[o].author].submission.body);
      }
    }

    /**
     * A client that repeats its request under the same key, whatever others do in
     * between: if both are accepted, they name the same order.
     */
    method AcceptTwice(r: RequestId, q: RequestId, submission: Submission, patience: nat)
      returns (first: Answer, second: Answer)
      requires store.Valid() && r !in store.requests && q !in store.requests && r != q && patience > 0
      modifies store
      ensures store.Valid() && old(store.trace) <= store.trace
      ensures first.Accepted? && second.Accepted? ==> first.order == second.order
      ensures !(first.Accepted? && second.KeyReused?) && !(first.KeyReused? && second.Accepted?)
    {
      first := AcceptOrder(r, submission, patience);
      if q in store.requests {
        // Somebody else took the identity of the second request.
        return first, Error;
      }
      second := AcceptOrder(q, submission, patience);
      store.ValidImpliesInv();
    }

    /** The fast path; None means that the key is new. */
    method LookForReplay(r: RequestId, submission: Submission) returns (answer: Option<Answer>)
      requires store.Valid() && store.Stands(r, submission, FastPath)
      modifies store
      ensures store.Valid() && old(store.trace) <= store.trace
      ensures if answer.Some? then store.Stands(r, submission, Answered(answer.value))
              else store.Stands(r, submission, Validating)
      ensures store.Calm() ==>
                && Untouched(store, old(store.rows), old(store.index), old(store.events))
                && answer == store.ReplayOf(submission) && (answer == None ==> store.holders == old(store.holders))
                && (answer == None ==> store.ticks == old(store.ticks) + 1)
    {
      var fate := store.Interfere(r);
      if fate == Breaks {
        store.Throw(r);
        return Some(Error);
      }
      var existing := store.FindByIdempotencyKey(submission.Scope());
      if existing.Some? {
        var replayed := ResolveReplay(r, submission, existing.value, Look(r));
        return Some(replayed);
      }
      store.TakeStep(Look(r));
      return None;
    }

    /** Customer, products and address are looked up; None is a rejection or an error, and the answer. */
    method Draft(r: RequestId, submission: Submission) returns (o: Option<OrderId>, refusal: Answer)
      requires store.Valid() && store.Stands(r, submission, Validating)
      modifies store
      ensures store.Valid() && old(store.trace) <= store.trace && (refusal == Unprocessable || refusal == Error)
      ensures store.Stands(r, submission, if o.Some? then Inserting(o.value) else Answered(refusal))
      ensures store.ticks == old(store.ticks) + 1
      ensures o.Some? || refusal == Unprocessable ==> (o.Some? <==> store.verdicts(store.ticks))
      ensures store.Calm() ==>
                && Untouched(store, old(store.rows), old(store.index), old(store.events))
                    && store.holders == old(store.holders)
                && (o == None ==> refusal == Unprocessable)
    {
      var fate := store.Interfere(r);
      if fate == Breaks {
        store.Throw(r);
        return None, Error;
      }
      if !store.verdicts(store.ticks) {
        store.TakeStep(Validate(r, None));
        return None, Unprocessable;
      }
      var id := store.NewId();
      store.TakeStep(Validate(r, Some(id)));
      return Some(id), Error;
    }

    /** Writes order and event, and finds out what to answer. */
    method Write(r: RequestId, submission: Submission, o: OrderId, patience: nat) returns (answer: Answer)
      requires store.Valid() && store.Stands(r, submission, Inserting(o)) && patience > 0
      modifies store
      ensures store.Valid() && old(store.trace) <= store.trace && store.Stands(r, submission, Answered(answer))
      ensures store.Calm() && submission.Scope() !in old(store.index) ==>
                if submission.Scope() in old(store.holders)
                then answer == TryAgain && Untouched(store, old(store.rows), old(store.index), old(store.events))
                else answer == Accepted(o) && Wrote(store, r, submission, o, old(store.rows), old(store.events))
    {
      var end := WithTransaction(r, submission, o, patience);
      match end {
        case Failed => answer := Error;
        case DuplicateKey =>
          var waitedMs;
          answer, waitedMs := AwaitWinner(r, submission);
        case Committed => answer := ReadCreated(r, submission, o);
      }
    }

    /** The slow path: validate, write order and event, read the order back. */
    method PlaceOrder(r: RequestId, submission: Submission, patience: nat) returns (answer: Answer)
      requires store.Valid() && store.Stands(r, submission, Validating) && patience > 0
      modifies store
      ensures store.Valid() && old(store.trace) <= store.trace && store.Stands(r, submission, Answered(answer))
      ensures store.Calm() && submission.Scope() !in old(store.index) ==>
                if answer.Accepted? then
                  && submission.Scope() !in old(store.holders) && answer.order !in old(store.rows)
                  && Wrote(store, r, submission, answer.order, old(store.rows), old(store.events))
                else
                  && Untouched(store, old(store.rows), old(store.index), old(store.events))
                  && (answer == Unprocessable || (answer == TryAgain && submission.Scope() in old(store.holders)))
      ensures store.Calm() && submission.Scope() !in old(store.index) ==>
                (answer == Unprocessable <==> !store.verdicts(old(store.ticks) + 1))
    {
      var o, refusal := Draft(r, submission);
      if o == None {
        return refusal;
      }
      store.ValidImpliesInv();
      assert RequestOk(store.Snapshot(), r);
      answer := Write(r, submission, o.value, patience);
    }

    /** The committed order is read back for the answer. */
    method ReadCreated(r: RequestId, submission: Submission, o: OrderId) returns (answer: Answer)
      requires store.Valid() && store.Stands(r, submission, ReadBack(o))
      modifies store
      ensures store.Valid() && old(store.trace) <= store.trace && store.Stands(r, submission, Answered(answer))
      ensures answer == Accepted(o) || answer == Error
      ensures store.Calm() ==>
                answer == Accepted(o) && Untouched(store, old(store.rows), old(store.index), old(store.events))
    {
      var fate := store.Interfere(r);
      if fate == Breaks {
        store.Throw(r);
        return Error;
      }
      store.ValidImpliesInv();
      assert RequestOk(store.Snapshot(), r);
      store.TakeStep(Read(r));
      return Accepted(o);
    }
  }

  function Doubled(n: nat): nat {
    if n == 0 then 1 else 2 * Doubled(n - 1)
  }

  lemma DoublingTable(n: nat)
    requires n <= 5
    ensures Doubled(n) == [1, 2, 4, 8, 16, 32][n]
  {
  }
}
