/**
 * Concurrent requests to accept an order (src/orders/orders.service.ts:67-138),
 * one database operation per step.
 */
module AcceptProtocol {
  import opened Wrappers
  import F = Fingerprint

  type OrderId = nat
  type EventId = nat
  type RequestId = nat

  /** The unique index (customer, idempotency key). */
  datatype KeyScope = KeyScope(customer: nat, key: nat)

  /** An order as far as idempotency is concerned; `author` (the request that wrote it) is history. */
  datatype Row = Row(scope: KeyScope, fingerprint: F.Canonical, author: RequestId)

  datatype Submission = Submission(key: nat, body: F.Request) {
    function Scope(): KeyScope {
      KeyScope(body.customer, key)
    }

    function Fingerprint(): F.Canonical {
      F.Canonicalize(body)
    }
  }

  datatype Answer =
    | Accepted(order: OrderId)
    | KeyReused(order: OrderId)
    | Unprocessable
    | TryAgain
    | Error

  /** The operation a request performs next. */
  datatype Pc =
    | FastPath
    | Validating
    | Inserting(order: OrderId)
    | Holding(order: OrderId)       // the order is inserted in an open transaction
    | ReadBack(order: OrderId)
    | Awaiting(misses: nat)
    | Answered(answer: Answer)
    | Gone

  datatype Work = Work(submission: Submission, pc: Pc)

  /** `index` holds committed keys, `holders` keys of open transactions, `ids` every object id ever generated. */
  datatype World = World(
    rows: map<OrderId, Row>,
    index: map<KeyScope, OrderId>,
    holders: map<KeyScope, RequestId>,
    events: map<EventId, OrderId>,
    requests: map<RequestId, Work>,
    ids: set<OrderId>)

  datatype Step =
    | Arrive(request: RequestId, submission: Submission)
    | Look(request: RequestId)
    | Validate(request: RequestId, id: Option<OrderId>)
    | Insert(request: RequestId)
    | Abort(request: RequestId, retried: bool)
    | Commit(request: RequestId, event: EventId, answered: bool)
    | Read(request: RequestId)
    | Await(request: RequestId)
    | Fail(request: RequestId)
    | Die(request: RequestId)

  const READS := 5

  /** A replay is answered with the stored order, unless its content differs. */
  function Resolve(o: OrderId, stored: F.Canonical, sent: F.Canonical): Answer {
    if stored == sent then Accepted(o) else KeyReused(o)
  }

  predicate Finished(pc: Pc) {
    pc.Answered? || pc.Gone?
  }

  predicate At(w: World, r: RequestId) {
    r in w.requests && !Finished(w.requests[r].pc)
  }

  predicate HasEvent(w: World, o: OrderId) {
    exists e :: e in w.events && w.events[e] == o
  }

  predicate Enabled(w: World, s: Step) {
    match s
    case Arrive(r, _) => r !in w.requests
    case Look(r) => At(w, r) && w.requests[r].pc == FastPath
    case Validate(r, id) => At(w, r) && w.requests[r].pc == Validating && (id.Some? ==> id.value !in w.ids)
    case Insert(r) => At(w, r) && w.requests[r].pc.Inserting?
    case Abort(r, _) => At(w, r) && w.requests[r].pc.Holding?
    case Commit(r, e, _) => At(w, r) && w.requests[r].pc.Holding? && e !in w.events
    case Read(r) => At(w, r) && w.requests[r].pc.ReadBack?
    case Await(r) => At(w, r) && w.requests[r].pc.Awaiting?
    case Fail(r) => At(w, r)
    case Die(r) => At(w, r)
  }

  function Goto(w: World, r: RequestId, pc: Pc): World
    requires r in w.requests
  {
    w.(requests := w.requests[r := w.requests[r].(pc := pc)])
  }

  function Say(w: World, r: RequestId, answer: Answer): World
    requires r in w.requests
  {
    Goto(w, r, Answered(answer))
  }

  /** What findByIdempotencyKey returns. */
  function Find(w: World, scope: KeyScope): Option<OrderId> {
    if scope in w.index && w.index[scope] in w.rows then Some(w.index[scope]) else None
  }

  /** A replay that found an order. */
  function Replay(w: World, r: RequestId, o: OrderId): World
    requires r in w.requests && o in w.rows
  {
    Say(w, r, Resolve(o, w.rows[o].fingerprint, w.requests[r].submission.Fingerprint()))
  }

  /** A transaction that ends without committing lets go of its key. */
  function LetGo(w: World, r: RequestId): World
    requires r in w.requests
  {
    if w.requests[r].pc.Holding? then w.(holders := w.holders - {w.requests[r].submission.Scope()}) else w
  }

  /** The unique index rejects a key that is committed or held by an open transaction. */
  function InsertStep(w: World, r: RequestId): World
    requires r in w.requests && w.requests[r].pc.Inserting?
  {
    var scope := w.requests[r].submission.Scope();
    if scope in w.index || scope in w.holders then Goto(w, r, Awaiting(0))
    else Goto(w.(holders := w.holders[scope := r]), r, Holding(w.requests[r].pc.order))
  }

  /** Order and event become visible together; a duplicate event would abort both. */
  function CommitStep(w: World, r: RequestId, e: EventId, answered: bool): World
    requires r in w.requests && w.requests[r].pc.Holding?
  {
    var Work(submission, Holding(o)) := w.requests[r];
    var scope := submission.Scope();
    if HasEvent(w, o) then Say(LetGo(w, r), r, Error)
    else
      var committed := w.(rows := w.rows[o := Row(scope, submission.Fingerprint(), r)],
                          index := w.index[scope := o],
                          holders := w.holders - {scope},
                          events := w.events[e := o]);
      if answered then Goto(committed, r, ReadBack(o)) else Say(committed, r, Error)
  }

  function AwaitStep(w: World, r: RequestId): World
    requires r in w.requests && w.requests[r].pc.Awaiting?
  {
    var found := Find(w, w.requests[r].submission.Scope());
    if found.Some? then Replay(w, r, found.value)
    else if w.requests[r].pc.misses + 1 < READS then Goto(w, r, Awaiting(w.requests[r].pc.misses + 1))
    else Say(w, r, TryAgain)
  }

  function LookStep(w: World, r: RequestId): World
    requires r in w.requests
  {
    var found := Find(w, w.requests[r].submission.Scope());
    if found.Some? then Replay(w, r, found.value) else Goto(w, r, Validating)
  }

  function Apply(w: World, s: Step): World
    requires Enabled(w, s)
  {
    match s
    case Arrive(r, submission) => w.(requests := w.requests[r := Work(submission, FastPath)])
    case Look(r) => LookStep(w, r)
    case Validate(r, None) => Say(w, r, Unprocessable)
    case Validate(r, Some(o)) => Goto(w.(ids := w.ids + {o}), r, Inserting(o))
    case Insert(r) => InsertStep(w, r)
    case Abort(r, retried) => Goto(LetGo(w, r), r, if retried then Inserting(w.requests[r].pc.order)
                                   else Answered(Error))
    case Commit(r, e, answered) => CommitStep(w, r, e, answered)
    case Read(r) => Say(w, r, if w.requests[r].pc.order in w.rows then Accepted(w.requests[r].pc.order) else Error)
    case Await(r) => AwaitStep(w, r)
    case Fail(r) => Say(LetGo(w, r), r, Error)
    case Die(r) => Goto(LetGo(w, r), r, Gone)
  }

  ghost predicate Initial(w: World) {
    w == World(map[], map[], map[], map[], map[], {})
  }

  ghost predicate ValidRun(w: World, steps: seq<Step>)
    decreases |steps|
  {
    steps == [] || (Enabled(w, steps[0]) && ValidRun(Apply(w, steps[0]), steps[1..]))
  }

  ghost function Run(w: World, steps: seq<Step>): World
    requires ValidRun(w, steps)
    decreases |steps|
  {
    if steps == [] then w else Run(Apply(w, steps[0]), steps[1..])
  }

  /** A run goes on after its last step. */
  lemma {:induction false} RunExtends(w: World, steps: seq<Step>, s: Step)
    requires ValidRun(w, steps) && Enabled(Run(w, steps), s)
    ensures ValidRun(w, steps + [s]) && Run(w, steps + [s]) == Apply(Run(w, steps), s)
    decreases |steps|
  {
    if steps == [] {
      assert [s][1..] == [] && steps + [s] == [s];
    } else {
      RunExtends(Apply(w, steps[0]), steps[1..], s);
      assert (steps + [s])[1..] == steps[1..] + [s];
    }
  }

  /** Every prefix of a run is a run, and what follows is a run from where it ended. */
  lemma {:induction false} RunSplits(w: World, front: seq<Step>, steps: seq<Step>)
    requires ValidRun(w, steps) && front <= steps
    ensures ValidRun(w, front) && ValidRun(Run(w, front), steps[|front|..])
    ensures Run(w, steps) == Run(Run(w, front), steps[|front|..])
    decreases |front|
  {
    if front == [] {
      assert steps[0..] == steps;
    } else {
      RunSplits(Apply(w, steps[0]), front[1..], steps[1..]);
      assert steps[1..][|front[1..]|..] == steps[|front|..];
    }
  }

  // ---------------------------------------------------------------- the invariant

  /** The index and the rows say the same. */
  ghost predicate IndexOk(w: World) {
    && (forall o :: o in w.rows ==> w.rows[o].scope in w.index && w.index[w.rows[o].scope] == o)
    && (forall k :: k in w.index ==> w.index[k] in w.rows && w.rows[w.index[k]].scope == k)
  }

  /** One ORDER_CREATED event for every order, and none without an order. */
  ghost predicate EventsOk(w: World) {
    && (forall e :: e in w.events ==> w.events[e] in w.rows)
    && (forall o :: o in w.rows ==> HasEvent(w, o))
    && (forall e, f :: e in w.events && f in w.events && w.events[e] == w.events[f] ==> e == f)
  }

  /** The id of an order not written yet belongs to one request. */
  predicate Drafts(pc: Pc, o: OrderId) {
    pc == Inserting(o) || pc == Holding(o)
  }

  ghost predicate RequestOk(w: World, r: RequestId)
    requires r in w.requests
  {
    var Work(submission, pc) := w.requests[r];
    && (pc.Inserting? || pc.Holding? ==> pc.order in w.ids && pc.order !in w.rows)
    && (pc.Holding? ==> submission.Scope() in w.holders && w.holders[submission.Scope()] == r)
    && (pc.ReadBack? ==> pc.order in w.rows && w.rows[pc.order] == Row(submission.Scope(), submission.Fingerprint(), r))
    && (pc.Awaiting? ==> pc.misses < READS)
    && (pc.Answered? ==> AnswerOk(w, submission, pc.answer))
  }

  /** What an answer claims about the stored orders is true. */
  ghost predicate AnswerOk(w: World, submission: Submission, answer: Answer) {
    && (answer.Accepted? || answer.KeyReused? ==>
        answer.order in w.rows && w.rows[answer.order].scope == submission.Scope())
    && (answer.Accepted? ==> w.rows[answer.order].fingerprint == submission.Fingerprint())
    && (answer.KeyReused? ==> w.rows[answer.order].fingerprint != submission.Fingerprint())
  }

  /** A request that wrote an order does not say otherwise. */
  predicate Owns(pc: Pc, o: OrderId) {
    pc == ReadBack(o) || pc == Answered(Accepted(o)) || pc == Answered(Error) || pc == Gone
  }

  ghost predicate RowOk(w: World, o: OrderId)
    requires o in w.rows
  {
    && o in w.ids && w.rows[o].author in w.requests
    && Owns(w.requests[w.rows[o].author].pc, o)
    && w.rows[o].scope == w.requests[w.rows[o].author].submission.Scope()
    && w.rows[o].fingerprint == w.requests[w.rows[o].author].submission.Fingerprint()
  }

  ghost predicate HoldersOk(w: World) {
    forall k :: k in w.holders ==>
      && k !in w.index && w.holders[k] in w.requests
      && w.requests[w.holders[k]].pc.Holding? && w.requests[w.holders[k]].submission.Scope() == k
  }

  ghost predicate DraftsOk(w: World) {
    forall r, q, o ::
      r in w.requests && q in w.requests && Drafts(w.requests[r].pc, o) && Drafts(w.requests[q].pc, o) ==> r == q
  }

  ghost predicate Inv(w: World) {
    && IndexOk(w) && EventsOk(w) && HoldersOk(w) && DraftsOk(w)
    && (forall r :: r in w.requests ==> RequestOk(w, r))
    && (forall o :: o in w.rows ==> RowOk(w, o))
  }

  /** Orders are never rewritten or deleted, an event stays with its order, and nobody takes an answer back. */
  ghost predicate Grows(w: World, w': World) {
    && (forall o :: o in w.rows ==> o in w'.rows && w'.rows[o] == w.rows[o])
    && (forall k :: k in w.index ==> k in w'.index && w'.index[k] == w.index[k])
    && (forall e :: e in w.events ==> e in w'.events && w'.events[e] == w.events[e])
    && (forall r :: r in w.requests ==>
          && r in w'.requests && w'.requests[r].submission == w.requests[r].submission
          && (Finished(w.requests[r].pc) ==> w'.requests[r] == w.requests[r]))
    && w.ids <= w'.ids
  }

  // ---------------------------------------------------------------- steps that write no order

  /** What a request may go on to. */
  ghost predicate Fits(w: World, ids: set<OrderId>, submission: Submission, pc: Pc, next: Pc) {
    match next
    case Inserting(o) => !pc.ReadBack? && o in ids && o !in w.rows && (o !in w.ids || Drafts(pc, o))
    case Holding(o) => pc == Inserting(o) && submission.Scope() !in w.index && submission.Scope() !in w.holders
    case Awaiting(misses) => misses < READS && !pc.ReadBack?
    case Answered(answer) => AnswerOk(w, submission, answer) && (pc.ReadBack? ==> Owns(next, pc.order))
    case Gone => true
    case Validating => !pc.ReadBack?
    case FastPath => false
    case ReadBack(_) => false
  }

  /** One request moves on; it may take or let go of its key. */
  ghost predicate LocalMove(w: World, w': World, r: RequestId) {
    && At(w, r) && r in w'.requests
    && w'.rows == w.rows && w'.index == w.index && w'.events == w.events && w.ids <= w'.ids
    && var Work(submission, pc), next := w.requests[r], w'.requests[r].pc;
    && w'.requests == w.requests[r := Work(submission, next)]
    && Fits(w, w'.ids, submission, pc, next)
    && w'.holders == if next.Holding? then w.holders[submission.Scope() := r]
                     else if pc.Holding? then w.holders - {submission.Scope()}
                     else w.holders
  }

  lemma FoundFits(w: World, r: RequestId)
    requires Inv(w) && At(w, r) && Find(w, w.requests[r].submission.Scope()).Some?
    ensures var submission := w.requests[r].submission;
            var o := Find(w, submission.Scope()).value;
            AnswerOk(w, submission, Resolve(o, w.rows[o].fingerprint, submission.Fingerprint()))
  {
  }

  /** A lookup that found the order answers the replay. */
  lemma ReplayIsLocal(w: World, r: RequestId, o: OrderId)
    requires At(w, r) && !w.requests[r].pc.ReadBack? && !w.requests[r].pc.Holding? && o in w.rows
    requires var submission := w.requests[r].submission;
             AnswerOk(w, submission, Resolve(o, w.rows[o].fingerprint, submission.Fingerprint()))
    ensures LocalMove(w, Replay(w, r, o), r)
  {
  }

  lemma LookIsLocal(w: World, r: RequestId)
    requires Inv(w) && Enabled(w, Look(r))
    ensures LocalMove(w, LookStep(w, r), r)
  {
    var found := Find(w, w.requests[r].submission.Scope());
    if found.Some? {
      FoundFits(w, r);
      ReplayIsLocal(w, r, found.value);
    }
  }

  lemma MissIsLocal(w: World, r: RequestId)
    requires Enabled(w, Await(r)) && Find(w, w.requests[r].submission.Scope()) == None
    requires w.requests[r].pc.misses < READS
    ensures LocalMove(w, AwaitStep(w, r), r)
  {
  }

  lemma AwaitIsLocal(w: World, r: RequestId)
    requires Inv(w) && Enabled(w, Await(r))
    ensures LocalMove(w, AwaitStep(w, r), r)
  {
    var found := Find(w, w.requests[r].submission.Scope());
    if found.Some? {
      FoundFits(w, r);
      ReplayIsLocal(w, r, found.value);
    } else {
      assert RequestOk(w, r);
      MissIsLocal(w, r);
    }
  }

  lemma ValidateIsLocal(w: World, s: Step)
    requires Inv(w) && Enabled(w, s) && s.Validate?
    ensures LocalMove(w, Apply(w, s), s.request)
  {
  }

  lemma InsertIsLocal(w: World, s: Step)
    requires Enabled(w, s) && (s.Insert? || s.Abort?) && RequestOk(w, s.request)
    ensures LocalMove(w, Apply(w, s), s.request)
  {
  }

  lemma EndIsLocal(w: World, s: Step)
    requires Enabled(w, s) && (s.Read? || s.Fail? || s.Die?) && RequestOk(w, s.request)
    ensures LocalMove(w, Apply(w, s), s.request)
  {
  }

  lemma StepIsLocal(w: World, s: Step)
    requires Inv(w) && Enabled(w, s) && !s.Arrive? && !s.Commit?
    ensures LocalMove(w, Apply(w, s), s.request)
  {
    if s.Look? {
      LookIsLocal(w, s.request);
    } else if s.Await? {
      AwaitIsLocal(w, s.request);
    } else if s.Validate? {
      ValidateIsLocal(w, s);
    } else if s.Insert? || s.Abort? {
      InsertIsLocal(w, s);
    } else {
      EndIsLocal(w, s);
    }
  }

  lemma LocalKeepsHolders(w: World, w': World, r: RequestId)
    requires HoldersOk(w) && RequestOkIn(w, r) && LocalMove(w, w', r)
    ensures HoldersOk(w')
  {
  }

  ghost predicate RequestOkIn(w: World, r: RequestId) {
    r in w.requests && RequestOk(w, r)
  }

  lemma LocalKeepsDrafts(w: World, w': World, r: RequestId)
    requires DraftsOk(w) && LocalMove(w, w', r) && forall q :: q in w.requests ==> RequestOk(w, q)
    ensures DraftsOk(w')
  {
  }

  lemma LocalKeepsRequest(w: World, w': World, r: RequestId, q: RequestId)
    requires HoldersOk(w) && RequestOkIn(w, r) && RequestOkIn(w, q) && LocalMove(w, w', r)
    ensures RequestOkIn(w', q)
  {
  }

  lemma LocalKeepsRow(w: World, w': World, r: RequestId, o: OrderId)
    requires o in w.rows && RowOk(w, o) && LocalMove(w, w', r)
    ensures RowOk(w', o)
  {
  }

  lemma LocalKeepsInv(w: World, w': World, r: RequestId)
    requires Inv(w) && LocalMove(w, w', r)
    ensures Inv(w') && Grows(w, w')
  {
    LocalKeepsHolders(w, w', r);
    LocalKeepsDrafts(w, w', r);
    forall o | o in w'.rows ensures HasEvent(w', o) {
      assert HasEvent(w, o);
    }
    forall q | q in w'.requests ensures RequestOk(w', q) {
      LocalKeepsRequest(w, w', r, q);
    }
    forall o | o in w'.rows ensures RowOk(w', o) {
      LocalKeepsRow(w, w', r, o);
    }
  }

  // ---------------------------------------------------------------- arrivals and commits

  /** A request appears; nothing else changes. */
  ghost predicate Arrived(w: World, w': World, r: RequestId, submission: Submission) {
    r !in w.requests && w' == w.(requests := w.requests[r := Work(submission, FastPath)])
  }

  lemma ArriveKeepsRow(w: World, w': World, r: RequestId, submission: Submission, o: OrderId)
    requires Arrived(w, w', r, submission) && o in w.rows && RowOk(w, o) && HasEvent(w, o)
    ensures RowOk(w', o) && HasEvent(w', o)
  {
  }

  lemma ArriveKeepsRequest(w: World, w': World, r: RequestId, submission: Submission, q: RequestId)
    requires Arrived(w, w', r, submission) && q in w'.requests && (q in w.requests ==> RequestOk(w, q))
    ensures RequestOk(w', q)
  {
  }

  lemma ArriveKeepsInv(w: World, w': World, r: RequestId, submission: Submission)
    requires Inv(w) && Arrived(w, w', r, submission)
    ensures Inv(w') && Grows(w, w')
  {
    forall o | o in w'.rows ensures RowOk(w', o) && HasEvent(w', o) {
      ArriveKeepsRow(w, w', r, submission, o);
    }
    forall q | q in w'.requests ensures RequestOk(w', q) {
      ArriveKeepsRequest(w, w', r, submission, q);
    }
  }

  /** The duplicate-event branch is dead: an order being inserted has no event yet. */
  lemma NoDuplicateEvent(w: World, r: RequestId)
    requires Inv(w) && r in w.requests && w.requests[r].pc.Holding?
    ensures !HasEvent(w, w.requests[r].pc.order)
  {
  }

  /** The order, its key and its event appear at once. */
  ghost predicate Committed(w: World, w': World, r: RequestId, e: EventId) {
    && r in w.requests && w.requests[r].pc.Holding? && e !in w.events
    && var Work(submission, Holding(o)) := w.requests[r];
    && w'.rows == w.rows[o := Row(submission.Scope(), submission.Fingerprint(), r)]
    && w'.index == w.index[submission.Scope() := o]
    && w'.holders == w.holders - {submission.Scope()}
    && w'.events == w.events[e := o]
    && r in w'.requests && w'.requests == w.requests[r := Work(submission, w'.requests[r].pc)]
    && (w'.requests[r].pc == ReadBack(o) || w'.requests[r].pc == Answered(Error))
    && w'.ids == w.ids
  }

  lemma StepIsCommit(w: World, r: RequestId, e: EventId, answered: bool)
    requires Inv(w) && Enabled(w, Commit(r, e, answered))
    ensures Committed(w, Apply(w, Commit(r, e, answered)), r, e)
  {
  }

  lemma CommitKeepsIndex(w: World, w': World, r: RequestId, e: EventId)
    requires IndexOk(w) && HoldersOk(w) && RequestOkIn(w, r) && Committed(w, w', r, e)
    ensures IndexOk(w') && HoldersOk(w')
  {
  }

  lemma CommitKeepsEvents(w: World, w': World, r: RequestId, e: EventId)
    requires EventsOk(w) && RequestOkIn(w, r) && Committed(w, w', r, e)
    ensures EventsOk(w')
  {
    forall o | o in w'.rows ensures HasEvent(w', o) {
      if o in w.rows {
        assert HasEvent(w, o);
        var f :| f in w.events && w.events[f] == o;
        assert f in w'.events && w'.events[f] == o;
      } else {
        assert e in w'.events && w'.events[e] == o;
      }
    }
  }

  lemma CommitKeepsDrafts(w: World, w': World, r: RequestId, e: EventId)
    requires DraftsOk(w) && Committed(w, w', r, e)
    ensures DraftsOk(w')
  {
  }

  lemma CommitKeepsRequest(w: World, w': World, r: RequestId, e: EventId, q: RequestId)
    requires DraftsOk(w) && HoldersOk(w) && RequestOkIn(w, r) && RequestOkIn(w, q) && Committed(w, w', r, e)
    ensures RequestOkIn(w', q)
  {
    var o := w.requests[r].pc.order;
    assert Drafts(w.requests[r].pc, o);
    if q != r {
      assert !Drafts(w.requests[q].pc, o);
    }
  }

  lemma CommitKeepsRow(w: World, w': World, r: RequestId, e: EventId, o: OrderId)
    requires RequestOkIn(w, r) && Committed(w, w', r, e) && o in w'.rows && (o in w.rows ==> RowOk(w, o))
    ensures RowOk(w', o)
  {
  }

  lemma CommitGrows(w: World, w': World, r: RequestId, e: EventId)
    requires HoldersOk(w) && RequestOkIn(w, r) && Committed(w, w', r, e)
    ensures Grows(w, w')
  {
  }

  lemma CommitKeepsInv(w: World, w': World, r: RequestId, e: EventId)
    requires Inv(w) && Committed(w, w', r, e)
    ensures Inv(w') && Grows(w, w')
  {
    assert RequestOkIn(w, r);
    CommitGrows(w, w', r, e);
    CommitKeepsIndex(w, w', r, e);
    CommitKeepsEvents(w, w', r, e);
    CommitKeepsDrafts(w, w', r, e);
    forall q | q in w'.requests ensures RequestOk(w', q) {
      CommitKeepsRequest(w, w', r, e, q);
    }
    forall o | o in w'.rows ensures RowOk(w', o) {
      CommitKeepsRow(w, w', r, e, o);
    }
  }

  lemma StepKeepsInv(w: World, s: Step)
    requires Inv(w) && Enabled(w, s)
    ensures Inv(Apply(w, s)) && Grows(w, Apply(w, s))
  {
    if s.Arrive? {
      ArriveKeepsInv(w, Apply(w, s), s.request, s.submission);
    } else if s.Commit? {
      StepIsCommit(w, s.request, s.event, s.answered);
      CommitKeepsInv(w, Apply(w, s), s.request, s.event);
    } else {
      StepIsLocal(w, s);
      LocalKeepsInv(w, Apply(w, s), s.request);
    }
  }

  lemma {:induction false} RunKeepsInv(w: World, steps: seq<Step>)
    requires Inv(w) && ValidRun(w, steps)
    ensures Inv(Run(w, steps)) && Grows(w, Run(w, steps))
    decreases |steps|
  {
    if steps != [] {
      StepKeepsInv(w, steps[0]);
      RunKeepsInv(Apply(w, steps[0]), steps[1..]);
    }
  }
}
