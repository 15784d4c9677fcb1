/** What accepting orders idempotently promises over whole runs. */
module AcceptTheorems {
  import opened Wrappers
  import opened AcceptProtocol
  import F = Fingerprint

  lemma ReachableInv(w: World, steps: seq<Step>)
    requires Initial(w) && ValidRun(w, steps)
    ensures Inv(Run(w, steps))
  {
    RunKeepsInv(w, steps);
  }

  /** The order was written by a request of this customer under this idempotency key. */
  ghost predicate WrittenFor(w: World, o: OrderId, customer: nat, key: nat) {
    && o in w.rows && w.rows[o].author in w.requests
    && w.requests[w.rows[o].author].submission.body.customer == customer
    && w.requests[w.rows[o].author].submission.key == key
  }

  /** A request of this customer holds this key in an open transaction. */
  ghost predicate HeldFor(w: World, customer: nat, key: nat) {
    exists r :: Holds(w, r, customer, key)
  }

  ghost predicate Holds(w: World, r: RequestId, customer: nat, key: nat) {
    && r in w.requests && w.requests[r].pc.Holding?
    && w.requests[r].submission.body.customer == customer && w.requests[r].submission.key == key
  }

  /** The unique index is about the customer and the key of the requests that wrote the orders. */
  lemma IndexedByCustomerAndKey(w: World, submission: Submission)
    requires Inv(w)
    ensures var scope, customer, key := submission.Scope(), submission.body.customer, submission.key;
            && (scope in w.index ==> WrittenFor(w, w.index[scope], customer, key))
            && (forall o :: WrittenFor(w, o, customer, key) ==> scope in w.index && w.index[scope] == o)
            && (scope in w.holders <==> HeldFor(w, customer, key))
  {
    var scope, customer, key := submission.Scope(), submission.body.customer, submission.key;
    if scope in w.index {
      assert RowOk(w, w.index[scope]);
    }
    forall o | WrittenFor(w, o, customer, key) ensures scope in w.index && w.index[scope] == o {
      assert RowOk(w, o);
    }
    if scope in w.holders {
      assert Holds(w, w.holders[scope], customer, key);
    }
    if HeldFor(w, customer, key) {
      var r :| Holds(w, r, customer, key);
      assert RequestOk(w, r);
    }
  }

  /**
   * However requests interleave, a customer has at most one order for an
   * idempotency key: every order has an author, and orders of two authors are
   * the same exactly when the authors agree on customer and key.
   */
  lemma OneOrderPerKey(w: World, steps: seq<Step>, o: OrderId, p: OrderId)
    requires Initial(w) && ValidRun(w, steps) && o in Run(w, steps).rows && p in Run(w, steps).rows
    ensures var end := Run(w, steps);
            && end.rows[o].author in end.requests && end.rows[p].author in end.requests
            && var mine, yours := end.requests[end.rows[o].author].submission,
                 end.requests[end.rows[p].author].submission;
               (o == p <==> mine.body.customer == yours.body.customer && mine.key == yours.key)
  {
    ReachableInv(w, steps);
    var end := Run(w, steps);
    assert RowOk(end, o) && RowOk(end, p);
    IndexedByCustomerAndKey(end, end.requests[end.rows[o].author].submission);
  }

  /** Orders and ORDER_CREATED events are in bijection in every reachable state. */
  lemma OrdersMatchEvents(w: World, steps: seq<Step>)
    requires Initial(w) && ValidRun(w, steps)
    ensures var end := Run(w, steps);
            && (forall o :: o in end.rows <==> HasEvent(end, o))
            && (forall e, f :: e in end.events && f in end.events && end.events[e] == end.events[f] ==> e == f)
  {
    ReachableInv(w, steps);
  }

  ghost predicate Says(w: World, r: RequestId, answer: Answer) {
    r in w.requests && w.requests[r].pc == Answered(answer)
  }

  /**
   * Successful answers name the same order exactly when their requests agree on
   * customer and key, and then these requests mean the same: same address up to
   * surrounding white space and the same lines in some order.
   */
  lemma SuccessfulAnswersAgree(w: World, steps: seq<Step>, r: RequestId, o: OrderId, q: RequestId, p: OrderId)
    requires Initial(w) && ValidRun(w, steps)
    requires Says(Run(w, steps), r, Accepted(o)) && Says(Run(w, steps), q, Accepted(p))
    ensures o in Run(w, steps).rows
    ensures var mine, yours := Run(w, steps).requests[r].submission, Run(w, steps).requests[q].submission;
            && (o == p <==> mine.body.customer == yours.body.customer && mine.key == yours.key)
            && (o == p && F.DistinctProducts(mine.body.items) ==> F.SameContent(mine.body, yours.body))
  {
    ReachableInv(w, steps);
    var end := Run(w, steps);
    var mine, yours := end.requests[r].submission, end.requests[q].submission;
    assert RequestOk(end, r) && RequestOk(end, q);
    assert RowOk(end, o) && RowOk(end, p);
    IndexedByCustomerAndKey(end, mine);
    if F.DistinctProducts(mine.body.items) {
      F.SameFingerprintIff(mine.body, yours.body);
    }
  }

  /** The answer is a refusal, or names an order that another request wrote. */
  ghost predicate Lost(w: World, r: RequestId, answer: Answer) {
    || answer.KeyReused? || answer.Unprocessable? || answer.TryAgain?
    || (answer.Accepted? && answer.order in w.rows && w.rows[answer.order].author != r)
  }

  /** A request that was refused, or lost the race for its key, wrote no order at all, and so no event either. */
  lemma RefusedWroteNothing(w: World, steps: seq<Step>, r: RequestId, answer: Answer, o: OrderId)
    requires Initial(w) && ValidRun(w, steps) && Says(Run(w, steps), r, answer) && Lost(Run(w, steps), r, answer)
    ensures o in Run(w, steps).rows ==> Run(w, steps).rows[o].author != r
  {
    ReachableInv(w, steps);
    assert o in Run(w, steps).rows ==> RowOk(Run(w, steps), o);
  }

  /**
   * Orders and events change in one kind of step only, the commit of a request that holds its
   * key, and then together.
   */
  lemma OnlyCommitsWrite(w: World, s: Step)
    requires Inv(w) && Enabled(w, s)
    ensures (Apply(w, s).rows != w.rows || Apply(w, s).events != w.events) <==> s.Commit?
    ensures s.Commit? ==>
              var o := w.requests[s.request].pc.order;
              && o !in w.rows && Apply(w, s).rows.Keys == w.rows.Keys + {o} && Apply(w, s).rows[o].author == s.request
              && Apply(w, s).events == w.events[s.event := o]
  {
    if s.Commit? {
      StepIsCommit(w, s.request, s.event, s.answered);
      assert RequestOk(w, s.request);
      assert s.event in Apply(w, s).events;
    } else if !s.Arrive? {
      StepIsLocal(w, s);
    }
  }

  // ---------------------------------------------------------------- replays

  /** A request that arrived after its key was taken. */
  ghost predicate IsReplay(w: World, r: RequestId, o: OrderId) {
    && o in w.rows && r in w.requests && w.rows[o].scope == w.requests[r].submission.Scope()
    && var Work(submission, pc) := w.requests[r];
       (pc == FastPath || pc == Gone || pc == Answered(Error)
        || pc == Answered(Resolve(o, w.rows[o].fingerprint, submission.Fingerprint())))
  }

  lemma OthersWait(w: World, s: Step, r: RequestId)
    requires Inv(w) && Enabled(w, s) && r in w.requests && s.request != r
    ensures r in Apply(w, s).requests && Apply(w, s).requests[r] == w.requests[r]
  {
    if s.Commit? {
      StepIsCommit(w, s.request, s.event, s.answered);
    } else if !s.Arrive? {
      StepIsLocal(w, s);
    }
  }

  lemma OwnStepKeepsReplay(w: World, s: Step, o: OrderId)
    requires Inv(w) && Enabled(w, s) && !s.Arrive? && w.requests[s.request].pc == FastPath && IsReplay(w, s.request, o)
    ensures IsReplay(Apply(w, s), s.request, o)
  {
  }

  lemma StepKeepsReplay(w: World, s: Step, r: RequestId, o: OrderId)
    requires Inv(w) && Enabled(w, s) && IsReplay(w, r, o)
    ensures IsReplay(Apply(w, s), r, o)
  {
    if s.request == r {
      OwnStepKeepsReplay(w, s, o);
    } else {
      StepKeepsInv(w, s);
      OthersWait(w, s, r);
    }
  }

  lemma {:induction false} RunKeepsReplay(w: World, steps: seq<Step>, r: RequestId, o: OrderId)
    requires Inv(w) && ValidRun(w, steps) && IsReplay(w, r, o)
    ensures IsReplay(Run(w, steps), r, o)
    decreases |steps|
  {
    if steps != [] {
      StepKeepsReplay(w, steps[0], r, o);
      StepKeepsInv(w, steps[0]);
      RunKeepsReplay(Apply(w, steps[0]), steps[1..], r, o);
    }
  }

  lemma ArrivesAsReplay(w: World, r: RequestId, submission: Submission, o: OrderId)
    requires Inv(w) && Enabled(w, Arrive(r, submission)) && o in w.rows && w.rows[o].scope == submission.Scope()
    ensures Inv(Apply(w, Arrive(r, submission))) && IsReplay(Apply(w, Arrive(r, submission)), r, o)
    ensures Apply(w, Arrive(r, submission)).rows == w.rows
    ensures Apply(w, Arrive(r, submission)).requests[r].submission == submission
  {
    StepKeepsInv(w, Arrive(r, submission));
  }

  /** Its answer, if it has one in a later state. */
  lemma ReplaySays(w: World, w': World, r: RequestId, o: OrderId, answer: Answer)
    requires IsReplay(w, r, o) && IsReplay(w', r, o) && Grows(w, w') && Says(w', r, answer)
    ensures answer == Error || answer == Resolve(o, w.rows[o].fingerprint, w.requests[r].submission.Fingerprint())
  {
  }

  /**
   * Once an order is committed, every later request of its customer under its key
   * that gets an answer at all is told that order if its content is the same, and
   * that the key was reused if it is not.
   */
  lemma ReplaysAreFaithful(w: World, front: seq<Step>, r: RequestId, submission: Submission, back: seq<Step>,
                           o: OrderId, answer: Answer)
    requires Initial(w) && ValidRun(w, front) && Enabled(Run(w, front), Arrive(r, submission))
    requires WrittenFor(Run(w, front), o, submission.body.customer, submission.key)
    requires ValidRun(Apply(Run(w, front), Arrive(r, submission)), back)
    requires Says(Run(Apply(Run(w, front), Arrive(r, submission)), back), r, answer)
    ensures answer == Error || answer == Accepted(o) || answer == KeyReused(o)
    ensures var first := Run(w, front).requests[Run(w, front).rows[o].author].submission.body;
            answer != Error && F.DistinctProducts(first.items) ==>
              (answer.Accepted? <==> F.SameContent(first, submission.body))
  {
    ReachableInv(w, front);
    var mid := Run(w, front);
    IndexedByCustomerAndKey(mid, submission);
    assert RowOk(mid, o);
    ArrivesAsReplay(mid, r, submission, o);
    var arrived := Apply(mid, Arrive(r, submission));
    RunKeepsInv(arrived, back);
    RunKeepsReplay(arrived, back, r, o);
    ReplaySays(arrived, Run(arrived, back), r, o, answer);
    var first := mid.requests[mid.rows[o].author].submission.body;
    if F.DistinctProducts(first.items) {
      F.SameFingerprintIff(first, submission.body);
    }
  }

  // ---------------------------------------------------------------- requests end

  /** Operations a request has left unless its transaction is restarted. */
  function Left(pc: Pc): nat {
    match pc
    case FastPath => 9
    case Validating => 8
    case Inserting(_) => 7
    case Holding(_) => 6
    case Awaiting(misses) => if misses <= READS then READS + 1 - misses else 0
    case ReadBack(_) => 1
    case Answered(_) => 0
    case Gone => 0
  }

  lemma LookupsRunOut(w: World, s: Step)
    requires Enabled(w, s) && (s.Look? || s.Await?) && RequestOk(w, s.request)
    ensures Left(Apply(w, s).requests[s.request].pc) < Left(w.requests[s.request].pc)
  {
  }

  lemma EndsAreNear(w: World, s: Step)
    requires Enabled(w, s) && (s.Validate? || s.Read? || s.Fail? || s.Die?) && RequestOk(w, s.request)
    ensures Left(Apply(w, s).requests[s.request].pc) < Left(w.requests[s.request].pc)
  {
  }

  lemma WritesRunOut(w: World, s: Step)
    requires Enabled(w, s) && (s.Insert? || s.Commit? || s.Abort?) && !(s.Abort? && s.retried)
    ensures Left(Apply(w, s).requests[s.request].pc) < Left(w.requests[s.request].pc)
  {
  }

  /** Every operation brings a request closer to its answer, except restarting a transaction. */
  lemma OperationsRunOut(w: World, s: Step)
    requires Inv(w) && Enabled(w, s) && !s.Arrive? && !(s.Abort? && s.retried)
    ensures s.request in Apply(w, s).requests
    ensures Left(Apply(w, s).requests[s.request].pc) < Left(w.requests[s.request].pc)
  {
    StepKeepsInv(w, s);
    if s.Look? || s.Await? {
      LookupsRunOut(w, s);
    } else if s.Insert? || s.Commit? || s.Abort? {
      WritesRunOut(w, s);
    } else {
      EndsAreNear(w, s);
    }
  }

  // ---------------------------------------------------------------- waiting for the winner

  /** Reads a request made while it waited for the one that took its key. */
  function Awaits(steps: seq<Step>, r: RequestId): nat {
    if steps == [] then 0 else (if steps[0] == Await(r) then 1 else 0) + Awaits(steps[1..], r)
  }

  /** Reads it can still make. */
  function AwaitsLeft(w: World, r: RequestId): nat {
    if r !in w.requests then READS
    else
      match w.requests[r].pc
      case Awaiting(misses) => if misses < READS then READS - misses else 0
      case Answered(_) => 0
      case Gone => 0
      case _ => READS
  }

  /** Reads it must have made. */
  function AwaitsMade(w: World, r: RequestId): nat {
    if r !in w.requests then 0
    else
      match w.requests[r].pc
      case Awaiting(misses) => misses
      case Answered(answer) => if answer == TryAgain then READS else 0
      case _ => 0
  }

  lemma OwnStepAwaits(w: World, s: Step)
    requires Enabled(w, s) && !s.Arrive? && RequestOk(w, s.request)
    ensures var r, w' := s.request, Apply(w, s);
            && AwaitsLeft(w', r) + (if s.Await? then 1 else 0) <= AwaitsLeft(w, r)
            && AwaitsMade(w', r) <= AwaitsMade(w, r) + (if s.Await? then 1 else 0)
  {
    if s.Look? {
    } else if s.Await? {
    } else if s.Commit? {
    } else if s.Read? {
    }
  }

  lemma StepAwaits(w: World, s: Step, r: RequestId)
    requires Inv(w) && Enabled(w, s)
    ensures AwaitsLeft(Apply(w, s), r) + (if s == Await(r) then 1 else 0) <= AwaitsLeft(w, r)
    ensures AwaitsMade(Apply(w, s), r) <= AwaitsMade(w, r) + (if s == Await(r) then 1 else 0)
  {
    if s.request == r && !s.Arrive? {
      OwnStepAwaits(w, s);
    } else if s.request != r {
      if r in w.requests {
        OthersWait(w, s, r);
      } else {
        NoOtherArrives(w, s, r);
      }
    }
  }

  lemma NoOtherArrives(w: World, s: Step, r: RequestId)
    requires Inv(w) && Enabled(w, s) && r !in w.requests && s.request != r
    ensures r !in Apply(w, s).requests
  {
    if s.Commit? {
      StepIsCommit(w, s.request, s.event, s.answered);
    } else if !s.Arrive? {
      StepIsLocal(w, s);
    }
  }

  /** In any run a request waits for at most five reads, and gives up after exactly five. */
  lemma {:induction false} WaitsFiveTimes(w: World, steps: seq<Step>, r: RequestId)
    requires Inv(w) && ValidRun(w, steps)
    ensures Awaits(steps, r) + AwaitsLeft(Run(w, steps), r) <= AwaitsLeft(w, r)
    ensures AwaitsMade(Run(w, steps), r) <= AwaitsMade(w, r) + Awaits(steps, r)
    decreases |steps|
  {
    if steps != [] {
      StepAwaits(w, steps[0], r);
      StepKeepsInv(w, steps[0]);
      WaitsFiveTimes(Apply(w, steps[0]), steps[1..], r);
    }
  }

  /** A request that lost the race for its key has written nothing and never will. */
  ghost predicate IsLoser(w: World, r: RequestId) {
    && r in w.requests && (w.requests[r].pc.Awaiting? || Finished(w.requests[r].pc))
    && forall o :: o in w.rows ==> w.rows[o].author != r
  }

  lemma WaitingIsLosing(w: World, r: RequestId)
    requires Inv(w) && r in w.requests && w.requests[r].pc.Awaiting?
    ensures IsLoser(w, r)
  {
    forall o | o in w.rows ensures w.rows[o].author != r {
      assert RowOk(w, o);
    }
  }

  lemma OwnStepKeepsLoser(w: World, s: Step)
    requires Enabled(w, s) && !s.Arrive? && !s.Commit? && IsLoser(w, s.request)
    ensures IsLoser(Apply(w, s), s.request)
  {
    if s.Await? {
    } else if s.Fail? {
    }
  }

  lemma LocalKeepsLoser(w: World, w': World, q: RequestId, r: RequestId)
    requires LocalMove(w, w', q) && IsLoser(w, r) && q != r
    ensures IsLoser(w', r)
  {
  }

  lemma CommitKeepsLoser(w: World, w': World, q: RequestId, e: EventId, r: RequestId)
    requires Committed(w, w', q, e) && IsLoser(w, r)
    ensures IsLoser(w', r)
  {
  }

  lemma StepKeepsLoser(w: World, s: Step, r: RequestId)
    requires Inv(w) && Enabled(w, s) && IsLoser(w, r)
    ensures IsLoser(Apply(w, s), r)
  {
    if s.Commit? {
      StepIsCommit(w, s.request, s.event, s.answered);
      CommitKeepsLoser(w, Apply(w, s), s.request, s.event, r);
    } else if s.Arrive? {
    } else if s.request == r {
      OwnStepKeepsLoser(w, s);
    } else {
      StepIsLocal(w, s);
      LocalKeepsLoser(w, Apply(w, s), s.request, r);
    }
  }

  lemma {:induction false} RunKeepsLoser(w: World, steps: seq<Step>, r: RequestId)
    requires Inv(w) && ValidRun(w, steps) && IsLoser(w, r)
    ensures IsLoser(Run(w, steps), r)
    decreases |steps|
  {
    if steps != [] {
      StepKeepsLoser(w, steps[0], r);
      StepKeepsInv(w, steps[0]);
      RunKeepsLoser(Apply(w, steps[0]), steps[1..], r);
    }
  }
}
