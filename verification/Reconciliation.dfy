/** The reconciliation sweeper (src/orders/order-reconciliation.service.ts) under arbitrary interference. */
module Reconciliation {
  import opened Wrappers
  import opened OrderStatuses
  import opened StockLedger
  import opened Charges
  import opened Orders
  import opened SagaProtocol
  import opened SagaInvariant
  import opened Histories
  import opened Backends
  import opened Operations

  /** The counters of a pass as a value. */
  datatype Tally = Tally(markedFailed: nat, authorized: nat, completed: nat, compensated: nat) {
    function Plus(other: Tally): Tally {
      Tally(markedFailed + other.markedFailed, authorized + other.authorized,
            completed + other.completed, compensated + other.compensated)
    }

    /** Orders brought to a terminal status. */
    function Settled(): nat {
      markedFailed + completed + compensated
    }
  }

  const NOTHING := Tally(0, 0, 0, 0)

  class ReconciliationResult {
    var markedFailed: nat
    var authorized: nat
    var completed: nat
    var compensated: nat
    var errors: nat

    constructor ()
      ensures Count() == NOTHING && errors == 0
    {
      markedFailed, authorized, completed, compensated, errors := 0, 0, 0, 0, 0;
    }

    function Count(): Tally
      reads this
    {
      Tally(markedFailed, authorized, completed, compensated)
    }
  }

  type ChargeRows = map<OrderId, Charge>

  /** Where an order in this live status has to end, given what the provider recorded about it. */
  function Verdict(status: OrderStatus, charge: Option<Charge>): OrderStatus
    requires !IsTerminal(status)
  {
    match status
    case PENDING => FAILED
    case STOCK_RESERVED => if charge.Some? && charge.value.status == SUCCEEDED then COMPLETED else COMPENSATED
    case PAYMENT_AUTHORIZED => COMPLETED
    case COMPENSATING => COMPENSATED
  }

  /** How an order that went from `status` to `end` is counted. */
  function Counted(status: OrderStatus, end: OrderStatus): Tally {
    match end
    case FAILED => NOTHING.(markedFailed := 1)
    case COMPLETED => NOTHING.(completed := 1, authorized := if status == STOCK_RESERVED then 1 else 0)
    case COMPENSATED => NOTHING.(compensated := 1)
    case _ => NOTHING
  }

  /** Under interference too, a counter says that the order is in the status the counter stands for. */
  ghost predicate CountsHonestly(before: Tally, after: Tally, rows: Orders, o: OrderId) {
    && before.authorized <= after.authorized <= before.authorized + 1
    && Rises(before.markedFailed, after.markedFailed, rows, o, FAILED)
    && Rises(before.completed, after.completed, rows, o, COMPLETED)
    && Rises(before.compensated, after.compensated, rows, o, COMPENSATED)
  }

  ghost predicate Rises(before: nat, after: nat, rows: Orders, o: OrderId, status: OrderStatus) {
    after == before || (after == before + 1 && o in rows && rows[o].status == status)
  }

  // ---------------------------------------------------------------- sweeping one status

  function InStatus(rows: Orders, status: OrderStatus): set<OrderId> {
    set o | o in rows && rows[o].status == status
  }

  ghost predicate NoRepeats(s: seq<OrderId>) {
    forall i, j :: 0 <= i < j < |s| ==> s[i] != s[j]
  }

  /** The orders settled so far had this status and have their verdicts; nothing else changed. */
  ghost predicate SettledSoFar(before: Orders, after: Orders, charges: ChargeRows, status: OrderStatus,
                               settled: seq<OrderId>)
    requires !IsTerminal(status)
  {
    && after.Keys == before.Keys && NoRepeats(settled)
    && (forall o :: o in settled ==>
          o in before && before[o].status == status && after[o].status == Verdict(status, Lookup(charges, o)))
    && (forall o :: o in before && o !in settled ==> after[o] == before[o])
  }

  /** How an order has to be counted. */
  function CountOf(rows: Orders, charges: ChargeRows, o: OrderId): Tally {
    if o in rows && !IsTerminal(rows[o].status)
    then Counted(rows[o].status, Verdict(rows[o].status, Lookup(charges, o)))
    else NOTHING
  }

  /** How orders have to be counted together. */
  function TallyOf(rows: Orders, charges: ChargeRows, settled: seq<OrderId>): Tally {
    if settled == [] then NOTHING
    else TallyOf(rows, charges, settled[..|settled| - 1]).Plus(CountOf(rows, charges, settled[|settled| - 1]))
  }

  lemma TallySnoc(rows: Orders, charges: ChargeRows, settled: seq<OrderId>, o: OrderId)
    ensures TallyOf(rows, charges, settled + [o]) == TallyOf(rows, charges, settled).Plus(CountOf(rows, charges, o))
  {
    var all := settled + [o];
    assert all[..|all| - 1] == settled && all[|all| - 1] == o;
  }

  lemma PlusAssociates(a: Tally, b: Tally, c: Tally)
    ensures a.Plus(b).Plus(c) == a.Plus(b.Plus(c))
  {
  }

  /** Counting more orders, also by the rows of a later moment at which they look the same. */
  lemma {:induction false} TallyAppend(rows: Orders, later: Orders, charges: ChargeRows, settled: seq<OrderId>,
                                       more: seq<OrderId>)
    requires forall o :: o in more ==> CountOf(rows, charges, o) == CountOf(later, charges, o)
    ensures TallyOf(rows, charges, settled + more)
              == TallyOf(rows, charges, settled).Plus(TallyOf(later, charges, more))
  {
    if more == [] {
      assert settled + more == settled;
    } else {
      var front, last := more[..|more| - 1], more[|more| - 1];
      assert more == front + [last] && settled + more == (settled + front) + [last];
      TallyAppend(rows, later, charges, settled, front);
      TallySnoc(rows, charges, settled + front, last);
      TallySnoc(later, charges, front, last);
      PlusAssociates(TallyOf(rows, charges, settled), TallyOf(later, charges, front), CountOf(later, charges, last));
    }
  }

  ghost predicate AllStale(rows: Orders, status: OrderStatus, staleAfterMs: nat, now: nat) {
    forall o :: o in rows && rows[o].status == status ==> Stale(rows[o], staleAfterMs, now)
  }

  lemma OneMoreSettled(first: Orders, before: Orders, after: Orders, charges: ChargeRows, status: OrderStatus,
                       settled: seq<OrderId>, o: OrderId)
    requires !IsTerminal(status) && SettledSoFar(first, before, charges, status, settled)
    requires Matches(before, o, status) && Settles(before, after, o, Verdict(status, Lookup(charges, o)))
    ensures SettledSoFar(first, after, charges, status, settled + [o])
    ensures TallyOf(first, charges, settled + [o])
            == TallyOf(first, charges, settled).Plus(Counted(status, Verdict(status, Lookup(charges, o))))
  {
    assert o !in settled && first[o] == before[o];
    TallySnoc(first, charges, settled, o);
    forall p | p in settled + [o]
      ensures p in first && first[p].status == status && after[p].status == Verdict(status, Lookup(charges, p))
    {
      assert p in settled || p == o;
    }
  }

  /** The settled orders explain the counters. */
  ghost predicate Explains(first: Orders, rows: Orders, charges: ChargeRows, status: OrderStatus, settled: seq<OrderId>,
                           start: Tally, now: Tally)
    requires !IsTerminal(status)
  {
    SettledSoFar(first, rows, charges, status, settled) && now == start.Plus(TallyOf(first, charges, settled))
  }

  lemma NothingYet(rows: Orders, charges: ChargeRows, status: OrderStatus, start: Tally)
    requires !IsTerminal(status)
    ensures Explains(rows, rows, charges, status, [], start, start)
  {
  }

  lemma ExplainsOneMore(first: Orders, before: Orders, after: Orders, charges: ChargeRows, status: OrderStatus,
                        settled: seq<OrderId>, o: OrderId, start: Tally, mid: Tally, now: Tally)
    requires !IsTerminal(status) && Explains(first, before, charges, status, settled, start, mid)
    requires Matches(before, o, status) && Settles(before, after, o, Verdict(status, Lookup(charges, o)))
    requires now == mid.Plus(Counted(status, Verdict(status, Lookup(charges, o))))
    ensures Explains(first, after, charges, status, settled + [o], start, now)
  {
    OneMoreSettled(first, before, after, charges, status, settled, o);
    PlusAssociates(start, TallyOf(first, charges, settled), Counted(status, Verdict(status, Lookup(charges, o))));
  }

  // ---------------------------------------------------------------- which ones, and how many

  /** The orders a claim can find. */
  function Stales(rows: Orders, status: OrderStatus, staleAfterMs: nat, now: nat): set<OrderId> {
    set o | o in rows && Claimable(rows, o, status, staleAfterMs, now)
  }

  /** Chosen among the stale ones, and none left out was updated earlier. */
  ghost predicate Oldest(rows: Orders, stale: set<OrderId>, chosen: set<OrderId>) {
    && chosen <= stale <= rows.Keys
    && forall o, p :: o in chosen && p in stale && p !in chosen ==> rows[o].updatedAt <= rows[p].updatedAt
  }

  function Min(a: nat, b: nat): nat {
    if a < b then a else b
  }

  /** As many as the batch allows, the oldest first. */
  ghost predicate OldestBatch(rows: Orders, stale: set<OrderId>, batchSize: nat, chosen: set<OrderId>) {
    Oldest(rows, stale, chosen) && |chosen| == Min(batchSize, |stale|)
  }

  function Elements(s: seq<OrderId>): set<OrderId> {
    set o | o in s
  }

  lemma {:induction false} DistinctSize(s: seq<OrderId>)
    requires NoRepeats(s)
    ensures |Elements(s)| == |s|
  {
    if s != [] {
      var front, last := s[..|s| - 1], s[|s| - 1];
      DistinctSize(front);
      assert Elements(s) == Elements(front) + {last};
    } else {
      assert Elements(s) == {};
    }
  }

  lemma SubsetSize(a: set<OrderId>, b: set<OrderId>)
    requires a <= b
    ensures |a| <= |b| && (|a| == |b| ==> a == b)
  {
    assert |b - a| == |b| - |a|;
  }

  /** What the claim picks next is the oldest stale order that is left. */
  lemma OldestNext(first: Orders, before: Orders, charges: ChargeRows, status: OrderStatus, settled: seq<OrderId>,
                   o: OrderId, staleAfterMs: nat, now: nat)
    requires !IsTerminal(status) && SettledSoFar(first, before, charges, status, settled)
    requires Oldest(first, Stales(first, status, staleAfterMs, now), Elements(settled))
    requires IsOldestClaimable(before, o, status, staleAfterMs, now)
    ensures Oldest(first, Stales(first, status, staleAfterMs, now), Elements(settled + [o]))
  {
    var stale := Stales(first, status, staleAfterMs, now);
    assert o !in settled && first[o] == before[o];
    assert Elements(settled + [o]) == Elements(settled) + {o};
    forall p | p in stale && p !in Elements(settled + [o]) ensures first[o].updatedAt <= first[p].updatedAt {
      assert before[p] == first[p] && Claimable(before, p, status, staleAfterMs, now);
    }
  }

  /** When the batch is full, or a claim finds nothing, the oldest stale orders are settled, as many as fit. */
  lemma BatchIsOver(first: Orders, rows: Orders, charges: ChargeRows, status: OrderStatus, settled: seq<OrderId>,
                    staleAfterMs: nat, now: nat, batchSize: nat)
    requires !IsTerminal(status) && SettledSoFar(first, rows, charges, status, settled)
    requires Oldest(first, Stales(first, status, staleAfterMs, now), Elements(settled)) && |settled| <= batchSize
    requires |settled| == batchSize || forall o :: !Claimable(rows, o, status, staleAfterMs, now)
    ensures OldestBatch(first, Stales(first, status, staleAfterMs, now), batchSize, Elements(settled))
  {
    var stale := Stales(first, status, staleAfterMs, now);
    DistinctSize(settled);
    SubsetSize(Elements(settled), stale);
    if |settled| < batchSize {
      forall o | o in stale ensures o in Elements(settled) {
        assert !Claimable(rows, o, status, staleAfterMs, now);
      }
      SubsetSize(stale, Elements(settled));
    }
  }

  // ---------------------------------------------------------------- sweeping all of them

  /** The four live statuses, in the order in which they are swept. */
  const SWEPT := [PENDING, STOCK_RESERVED, PAYMENT_AUTHORIZED, COMPENSATING]

  /** After the first `n` statuses: the settled orders had one of them, all others are as they were. */
  ghost predicate SettledUpTo(before: Orders, after: Orders, charges: ChargeRows, n: nat, settled: seq<OrderId>)
    requires n <= 4
  {
    && after.Keys == before.Keys && NoRepeats(settled)
    && (forall o :: o in settled ==> o in before && !IsTerminal(before[o].status) && before[o].status in SWEPT[..n]
                                     && after[o].status == Verdict(before[o].status, Lookup(charges, o)))
    && (forall o :: o in before && o !in settled ==> after[o] == before[o])
  }

  /** Those of them that had this status. */
  function Of(rows: Orders, settled: seq<OrderId>, status: OrderStatus): set<OrderId> {
    set o | o in settled && o in rows && rows[o].status == status
  }

  /** Of this status the oldest stale orders are settled, as many as one batch allows. */
  ghost predicate Swept(rows: Orders, status: OrderStatus, staleAfterMs: nat, now: nat, batchSize: nat,
                         settled: seq<OrderId>)
  {
    OldestBatch(rows, Stales(rows, status, staleAfterMs, now), batchSize, Of(rows, settled, status))
  }

  ghost predicate SweptUpTo(rows: Orders, n: nat, staleAfterMs: nat, now: nat, batchSize: nat, settled: seq<OrderId>)
    requires n <= 4
  {
    forall k :: 0 <= k < n ==> Swept(rows, SWEPT[k], staleAfterMs, now, batchSize, settled)
  }

  lemma NewlySettled(first: Orders, before: Orders, charges: ChargeRows, n: nat, settled: seq<OrderId>,
                     more: seq<OrderId>)
    requires n < 4 && SettledUpTo(first, before, charges, n, settled)
    requires forall o :: o in more ==> o in before && before[o].status == SWEPT[n]
    ensures forall o :: o in more ==> o !in settled && first[o] == before[o]
  {
  }

  lemma NoRepeatsJoin(s: seq<OrderId>, t: seq<OrderId>)
    requires NoRepeats(s) && NoRepeats(t) && forall o :: o in t ==> o !in s
    ensures NoRepeats(s + t)
  {
    forall i, j | 0 <= i < j < |s + t| ensures (s + t)[i] != (s + t)[j] {
      if i < |s| <= j {
        assert (s + t)[j] in t && (s + t)[i] in s;
      }
    }
  }

  lemma NextSettled(first: Orders, before: Orders, after: Orders, charges: ChargeRows, n: nat, settled: seq<OrderId>,
                    more: seq<OrderId>)
    requires n < 4 && SettledUpTo(first, before, charges, n, settled)
    requires SettledSoFar(before, after, charges, SWEPT[n], more)
    ensures SettledUpTo(first, after, charges, n + 1, settled + more)
  {
    assert SWEPT[..n + 1] == SWEPT[..n] + [SWEPT[n]];
    NewlySettled(first, before, charges, n, settled, more);
    NoRepeatsJoin(settled, more);
  }

  /** Orders of a status not yet swept are all as they were, and nobody has joined them. */
  lemma StillThere(first: Orders, before: Orders, charges: ChargeRows, n: nat, settled: seq<OrderId>,
                   staleAfterMs: nat, now: nat)
    requires n < 4 && SettledUpTo(first, before, charges, n, settled)
    ensures Stales(before, SWEPT[n], staleAfterMs, now) == Stales(first, SWEPT[n], staleAfterMs, now)
    ensures forall o :: o in Stales(first, SWEPT[n], staleAfterMs, now) ==> before[o] == first[o]
  {
    assert SWEPT[n] !in SWEPT[..n];
    forall o
      ensures o in Stales(before, SWEPT[n], staleAfterMs, now) <==> o in Stales(first, SWEPT[n], staleAfterMs, now)
    {
      assert o in settled ==> first[o].status != SWEPT[n] && before[o].status != SWEPT[n];
    }
  }

  lemma NextSwept(first: Orders, before: Orders, after: Orders, charges: ChargeRows, n: nat, settled: seq<OrderId>,
                   more: seq<OrderId>, staleAfterMs: nat, now: nat, batchSize: nat)
    requires n < 4 && SettledUpTo(first, before, charges, n, settled)
    requires SweptUpTo(first, n, staleAfterMs, now, batchSize, settled)
    requires SettledSoFar(before, after, charges, SWEPT[n], more)
    requires OldestBatch(before, Stales(before, SWEPT[n], staleAfterMs, now), batchSize, Elements(more))
    ensures SweptUpTo(first, n + 1, staleAfterMs, now, batchSize, settled + more)
  {
    NewlySettled(first, before, charges, n, settled, more);
    StillThere(first, before, charges, n, settled, staleAfterMs, now);
    forall k | 0 <= k < n + 1 ensures Swept(first, SWEPT[k], staleAfterMs, now, batchSize, settled + more) {
      if k < n {
        assert Swept(first, SWEPT[k], staleAfterMs, now, batchSize, settled);
        assert Of(first, settled + more, SWEPT[k]) == Of(first, settled, SWEPT[k]);
      } else {
        assert SWEPT[n] !in SWEPT[..n];
        assert Of(first, settled + more, SWEPT[n]) == Elements(more);
      }
    }
  }

  /** A pass that has swept the first `n` statuses: what it settled explains its counters. */
  ghost predicate PassOk(n: nat, first: Orders, rows: Orders, charges: ChargeRows, staleAfterMs: nat, now: nat,
                         batchSize: nat, settled: seq<OrderId>, count: Tally)
    requires n <= 4
  {
    && SettledUpTo(first, rows, charges, n, settled)
    && SweptUpTo(first, n, staleAfterMs, now, batchSize, settled)
    && count == TallyOf(first, charges, settled)
  }

  lemma PassStarts(rows: Orders, charges: ChargeRows, staleAfterMs: nat, now: nat, batchSize: nat)
    ensures PassOk(0, rows, rows, charges, staleAfterMs, now, batchSize, [], NOTHING)
  {
  }

  lemma PassGoesOn(n: nat, first: Orders, before: Orders, after: Orders, charges: ChargeRows, staleAfterMs: nat,
                   now: nat, batchSize: nat, settled: seq<OrderId>, more: seq<OrderId>, count: Tally)
    requires n < 4 && PassOk(n, first, before, charges, staleAfterMs, now, batchSize, settled, count)
    requires SettledSoFar(before, after, charges, SWEPT[n], more)
    requires OldestBatch(before, Stales(before, SWEPT[n], staleAfterMs, now), batchSize, Elements(more))
    ensures PassOk(n + 1, first, after, charges, staleAfterMs, now, batchSize, settled + more,
                   count.Plus(TallyOf(before, charges, more)))
  {
    NextSettled(first, before, after, charges, n, settled, more);
    NextSwept(first, before, after, charges, n, settled, more, staleAfterMs, now, batchSize);
    forall o | o in more ensures CountOf(first, charges, o) == CountOf(before, charges, o) {
      NewlySettled(first, before, charges, n, settled, more);
    }
    TallyAppend(first, before, charges, settled, more);
  }

  // ---------------------------------------------------------------- a pass that covers everything

  /** Every order of the status is stale and unclaimed, and one batch covers them. */
  ghost predicate BatchFits(rows: Orders, status: OrderStatus, batchSize: nat, staleAfterMs: nat, now: nat) {
    AllStale(rows, status, staleAfterMs, now) && |InStatus(rows, status)| <= batchSize
  }

  ghost predicate BatchesFit(rows: Orders, batchSize: nat, staleAfterMs: nat, now: nat) {
    forall k :: 0 <= k < 4 ==> BatchFits(rows, SWEPT[k], batchSize, staleAfterMs, now)
  }

  /** Then the batch has settled all of them. */
  lemma BatchCovers(rows: Orders, status: OrderStatus, batchSize: nat, staleAfterMs: nat, now: nat,
                    settled: seq<OrderId>)
    requires BatchFits(rows, status, batchSize, staleAfterMs, now)
    requires Swept(rows, status, staleAfterMs, now, batchSize, settled)
    ensures forall o :: o in rows && rows[o].status == status ==> o in settled
  {
    var stale := Stales(rows, status, staleAfterMs, now);
    assert stale == InStatus(rows, status);
    SubsetSize(Of(rows, settled, status), stale);
    forall o | o in rows && rows[o].status == status ensures o in settled {
      assert o in stale;
    }
  }

  /** The orders settled are the live ones, each once. */
  ghost predicate IsLiveList(rows: Orders, settled: seq<OrderId>) {
    NoRepeats(settled) && forall o :: o in settled <==> o in rows && !IsTerminal(rows[o].status)
  }

  /** Every live order has its verdict, every terminal one is untouched. */
  ghost predicate Reconciled(before: Orders, after: Orders, charges: ChargeRows) {
    && after.Keys == before.Keys
    && forall o :: o in before ==>
         if IsTerminal(before[o].status) then after[o] == before[o]
         else after[o].status == Verdict(before[o].status, Lookup(charges, o))
  }

  lemma AllSwept(before: Orders, after: Orders, charges: ChargeRows, staleAfterMs: nat, now: nat, batchSize: nat,
                 settled: seq<OrderId>)
    requires SettledUpTo(before, after, charges, 4, settled)
    requires SweptUpTo(before, 4, staleAfterMs, now, batchSize, settled)
    requires BatchesFit(before, batchSize, staleAfterMs, now)
    ensures Reconciled(before, after, charges) && IsLiveList(before, settled)
  {
    forall o | o in before && !IsTerminal(before[o].status) ensures o in settled {
      var k := if before[o].status == PENDING then 0 else if before[o].status == STOCK_RESERVED then 1
               else if before[o].status == PAYMENT_AUTHORIZED then 2 else 3;
      assert SWEPT[k] == before[o].status;
      BatchCovers(before, SWEPT[k], batchSize, staleAfterMs, now, settled);
    }
  }

  /** Every live order is counted as settled exactly once. */
  lemma {:induction false} TallySettles(rows: Orders, charges: ChargeRows, settled: seq<OrderId>)
    requires forall o :: o in settled ==> o in rows && !IsTerminal(rows[o].status)
    ensures TallyOf(rows, charges, settled).Settled() == |settled|
  {
    if settled != [] {
      var front, last := settled[..|settled| - 1], settled[|settled| - 1];
      TallySettles(rows, charges, front);
      assert settled == front + [last] && last in settled;
      TallySnoc(rows, charges, front, last);
    }
  }

  // ---------------------------------------------------------------- a batch by its operations

  /**
   * The orders a batch has claimed and handled so far: the moments of the claims,
   * and how many operations had been performed when each handler was done.
   */
  datatype Rounds = NoRound(from: History, start: nat) | Round(earlier: Rounds, claim: History, end: nat) {
    function Count(): nat {
      if NoRound? then 0 else earlier.Count() + 1
    }

    /** Operations performed by the end of the last round. */
    function Ticks(): nat {
      if NoRound? then start else end
    }

    function Moment(): History {
      if NoRound? then from else claim
    }

    function Origin(): (origin: Rounds)
      ensures origin.NoRound?
    {
      if NoRound? then this else earlier.Origin()
    }

    /** Rounds whose handler threw: its last operation failed. */
    function Failed(faults: nat -> bool): nat {
      if NoRound? then 0 else earlier.Failed(faults) + if faults(end) then 1 else 0
    }

    /**
     * Every round claimed an order of the status, after the one before it and
     * with its first operation, which did not fail, and went on to handle it.
     */
    ghost predicate Ok(status: OrderStatus, faults: nat -> bool) {
      Round? ==>
        && earlier.Ok(status, faults)
        && claim.Then? && claim.step.Claim? && claim.step.status == status && Within(earlier.Moment(), claim.before)
        && earlier.Ticks() + 1 < end && !faults(earlier.Ticks() + 1)
    }

    /** A batch that is not full ends with one more claim, which failed or found nothing. */
    function End(batchSize: nat): nat {
      if Count() < batchSize then Ticks() + 1 else Ticks()
    }

    /** The batch is over: it is full, or its next claim threw, or found nothing. */
    ghost predicate Over(batchSize: nat, faults: nat -> bool, threw: bool) {
      && Count() <= batchSize
      && (threw <==> Count() < batchSize && faults(Ticks() + 1))
    }
  }

  lemma RoundAdded(rounds: Rounds, claim: History, end: nat, status: OrderStatus, faults: nat -> bool)
    requires rounds.Ok(status, faults) && rounds.Ticks() + 1 < end && !faults(rounds.Ticks() + 1)
    requires claim.Then? && claim.step.Claim? && claim.step.status == status && Within(rounds.Moment(), claim.before)
    ensures var now := Round(rounds, claim, end);
            && now.Ok(status, faults) && now.Origin() == rounds.Origin() && now.Count() == rounds.Count() + 1
            && now.Ticks() == end && now.Moment() == claim
            && now.Failed(faults) == rounds.Failed(faults) + if faults(end) then 1 else 0
  {
  }

  /** The batches of a pass. */
  datatype Log = NoBatch(from: History, start: nat) | Batch(earlier: Log, rounds: Rounds) {
    function Count(): nat {
      if NoBatch? then 0 else earlier.Count() + 1
    }

    function End(batchSize: nat): nat {
      if NoBatch? then start else rounds.End(batchSize)
    }

    function Moment(): History {
      if NoBatch? then from else rounds.Moment()
    }

    function Origin(): (origin: Log)
      ensures origin.NoBatch?
    {
      if NoBatch? then this else earlier.Origin()
    }

    function Failed(faults: nat -> bool): nat {
      if NoBatch? then 0 else earlier.Failed(faults) + rounds.Failed(faults)
    }

    /** The statuses were swept in turn, each from where the last one ended; only the last batch may have thrown. */
    ghost predicate Ok(batchSize: nat, faults: nat -> bool, threw: bool) {
      if NoBatch? then !threw
      else
        && earlier.Count() < 4 && earlier.Ok(batchSize, faults, false)
        && rounds.Ok(SWEPT[earlier.Count()], faults) && rounds.Over(batchSize, faults, threw)
        && rounds.Origin().start == earlier.End(batchSize) && Within(earlier.Moment(), rounds.Origin().from)
    }
  }

  /** Where nothing fails, there is no error. */
  lemma Flawless(rounds: Rounds, faults: nat -> bool)
    requires forall k :: !faults(k)
    ensures rounds.Failed(faults) == 0
  {
  }

  lemma Spotless(log: Log, faults: nat -> bool)
    requires forall k :: !faults(k)
    ensures log.Failed(faults) == 0
  {
    if log.Batch? {
      Flawless(log.rounds, faults);
      Spotless(log.earlier, faults);
    }
  }

  class OrderReconciliationService {
    const b: Backend
    const enabled: bool
    const batchSize: nat

    constructor (backend: Backend, enabled: bool, batchSize: nat)
      ensures b == backend && this.enabled == enabled && this.batchSize == batchSize
    {
      b := backend;
      this.enabled, this.batchSize := enabled, batchSize;
    }

    /** Operations were performed since then; the last of them failed, or else it did not. */
    ghost predicate FailsOrNot(before: nat, threw: bool)
      reads b
    {
      before < b.ticks && (threw <==> b.faults(b.ticks))
    }

    /** One compare-and-swap of a handler. */
    method Attempt(a: ActorId, ghost o: OrderId, ghost pc: Pc, from: OrderStatus, to: OrderStatus,
                   patch: TransitionPatch)
      returns (r: Outcome<bool>)
      requires b.Valid() && a in b.actors && b.actors[a] == Actor(o, pc)
      requires IsSweeper(pc) && IsCas(pc) && CasOf(pc) == CasArgs(from, to, patch)
      modifies b.Footprint()
      ensures b.Valid() && Onward(old(b.history), b.history, a)
      ensures FailsOrNot(old(b.ticks), r.Threw?) && (r.Returned? ==> Past(b, o, from))
      ensures Stands(b.actors, a, o, if r.Returned? then AfterCas(pc, r.value) else None)
      ensures r == Returned(true) ==> o in b.orders.rows && b.orders.rows[o].status == to
      ensures b.Calm() ==> r.Returned? && b.clock == old(b.clock) && b.charges.rows == old(b.charges.rows)
      ensures b.Calm() && old(Matches(b.orders.rows, o, from)) ==>
                r.value && Settles(old(b.orders.rows), b.orders.rows, o, to)
    {
      ghost var rows, now := b.orders.rows, b.clock;
      r := TransitionOrder(b, a, o, pc, from, to, patch);
      if Matches(rows, o, from) {
        CasSettles(rows, o, from, to, patch, now);
      }
    }

    /** Fail an order that aged out, then close the window in which a reserve can have slipped in. */
    method ResolvePending(a: ActorId, ghost o: OrderId, result: ReconciliationResult) returns (r: Outcome<()>)
      requires b.Valid() && a in b.actors && b.actors[a] == Actor(o, SweepFailCas)
      modifies b.Footprint(), result
      ensures b.Valid() && Onward(old(b.history), b.history, a) && a !in b.actors && result.errors == old(result.errors)
      ensures FailsOrNot(old(b.ticks), r.Threw?) && (r.Returned? ==> Past(b, o, PENDING))
      ensures CountsHonestly(old(result.Count()), result.Count(), b.orders.rows, o)
      ensures b.Calm() ==> b.clock == old(b.clock) && b.charges.rows == old(b.charges.rows)
      ensures b.Calm() && old(Matches(b.orders.rows, o, PENDING)) ==>
                && r.Returned? && Settles(old(b.orders.rows), b.orders.rows, o, FAILED)
                && result.Count() == old(result.Count()).Plus(Counted(PENDING, FAILED))
    {
      var failed :- Attempt(a, o, SweepFailCas, PENDING, FAILED, TransitionPatch(None, None, Some(RECONCILED_TIMEOUT)));
      if !failed {
        return Returned(());
      }
      ghost var mid := b.history;
      r := ReturnStock(a, o, result);
      OnwardOn(old(b.history), mid, b.history, a);
    }

    /** The release after a timeout: a no-op unless a reserve committed just before the order failed. */
    method ReturnStock(a: ActorId, ghost o: OrderId, result: ReconciliationResult) returns (r: Outcome<()>)
      requires b.Valid() && a in b.actors && b.actors[a] == Actor(o, SweepFailRelease)
      requires o in b.orders.rows && b.orders.rows[o].status == FAILED
      modifies b.Footprint(), result
      ensures b.Valid() && Onward(old(b.history), b.history, a) && a !in b.actors && result.errors == old(result.errors)
      ensures FailsOrNot(old(b.ticks), r.Threw?)
      ensures o in b.orders.rows && b.orders.rows[o].status == FAILED
      ensures result.Count() == if r.Returned? then old(result.Count()).Plus(Counted(PENDING, FAILED))
                else old(result.Count())
      ensures r.Returned? && o in b.inventory.reserves ==> o in b.inventory.releases
      ensures b.Calm() ==>
                && r.Returned? && b.orders.rows == old(b.orders.rows) && b.clock == old(b.clock)
                && b.charges.rows == old(b.charges.rows)
    {
      ghost var before := b.orders.rows;
      var released := ReleaseStock(b, a, o, SweepFailRelease);
      OnwardIsWithin(old(b.history), b.history, a);
      b.Since(old(b.history));
      assert Reaches(before[o].status, b.orders.rows[o].status);
      if released.Threw? {
        return Threw;
      }
      result.markedFailed := result.markedFailed + 1;
      return Returned(());
    }

    /** Give the stock back, then settle the order. */
    method ReleaseAndSettle(a: ActorId, ghost o: OrderId, result: ReconciliationResult) returns (r: Outcome<()>)
      requires b.Valid() && a in b.actors && b.actors[a] == Actor(o, SweepRelease)
      modifies b.Footprint(), result
      ensures b.Valid() && Onward(old(b.history), b.history, a) && a !in b.actors && result.errors == old(result.errors)
      ensures FailsOrNot(old(b.ticks), r.Threw?) && (r.Returned? ==> Past(b, o, COMPENSATING))
      ensures CountsHonestly(old(result.Count()), result.Count(), b.orders.rows, o)
      ensures b.Calm() ==> b.clock == old(b.clock) && b.charges.rows == old(b.charges.rows)
      ensures b.Calm() && old(Matches(b.orders.rows, o, COMPENSATING)) ==>
                && r.Returned? && Settles(old(b.orders.rows), b.orders.rows, o, COMPENSATED)
                && result.Count() == old(result.Count()).Plus(Counted(COMPENSATING, COMPENSATED))
    {
      var released :- ReleaseStock(b, a, o, SweepRelease);
      ghost var mid := b.history;
      r := SettleCompensated(a, o, result);
      OnwardOn(old(b.history), mid, b.history, a);
    }

    /** The stock is back: say so. */
    method SettleCompensated(a: ActorId, ghost o: OrderId, result: ReconciliationResult) returns (r: Outcome<()>)
      requires b.Valid() && a in b.actors && b.actors[a] == Actor(o, SweepCompensatedCas)
      modifies b.Footprint(), result
      ensures b.Valid() && Onward(old(b.history), b.history, a) && a !in b.actors && result.errors == old(result.errors)
      ensures FailsOrNot(old(b.ticks), r.Threw?) && (r.Returned? ==> Past(b, o, COMPENSATING))
      ensures CountsHonestly(old(result.Count()), result.Count(), b.orders.rows, o)
      ensures b.Calm() ==> b.clock == old(b.clock) && b.charges.rows == old(b.charges.rows)
      ensures b.Calm() && old(Matches(b.orders.rows, o, COMPENSATING)) ==>
                && r.Returned? && Settles(old(b.orders.rows), b.orders.rows, o, COMPENSATED)
                && result.Count() == old(result.Count()).Plus(Counted(COMPENSATING, COMPENSATED))
    {
      assert CasOf(SweepCompensatedCas) == CasArgs(COMPENSATING, COMPENSATED, NO_PATCH);
      var settled :- Attempt(a, o, SweepCompensatedCas, COMPENSATING, COMPENSATED, NO_PATCH);
      if settled {
        result.compensated := result.compensated + 1;
      }
      return Returned(());
    }

    /** Paid and reserved: the order only has to be closed. */
    method ResolveAuthorized(a: ActorId, ghost o: OrderId, result: ReconciliationResult) returns (r: Outcome<()>)
      requires b.Valid() && a in b.actors && b.actors[a] == Actor(o, SweepComplete)
      modifies b.Footprint(), result
      ensures b.Valid() && Onward(old(b.history), b.history, a) && a !in b.actors && result.errors == old(result.errors)
      ensures FailsOrNot(old(b.ticks), r.Threw?) && (r.Returned? ==> Past(b, o, PAYMENT_AUTHORIZED))
      ensures result.authorized == old(result.authorized)
      ensures CountsHonestly(old(result.Count()), result.Count(), b.orders.rows, o)
      ensures b.Calm() ==> b.clock == old(b.clock) && b.charges.rows == old(b.charges.rows)
      ensures b.Calm() && old(Matches(b.orders.rows, o, PAYMENT_AUTHORIZED)) ==>
                && r.Returned? && Settles(old(b.orders.rows), b.orders.rows, o, COMPLETED)
                && result.Count() == old(result.Count()).Plus(Counted(PAYMENT_AUTHORIZED, COMPLETED))
    {
      var settled :- Attempt(a, o, SweepComplete, PAYMENT_AUTHORIZED, COMPLETED, NO_PATCH);
      if settled {
        result.completed := result.completed + 1;
      }
      return Returned(());
    }

    /** The money moved: record it. */
    method MarkPaid(a: ActorId, ghost o: OrderId, charge: PaymentResult) returns (r: Outcome<bool>)
      requires b.Valid() && a in b.actors && b.actors[a] == Actor(o, SweepResolve(Some(charge))) && charge.success
      modifies b.Footprint()
      ensures b.Valid() && Onward(old(b.history), b.history, a)
      ensures FailsOrNot(old(b.ticks), r.Threw?) && (r.Returned? ==> Past(b, o, STOCK_RESERVED))
      ensures Stands(b.actors, a, o, if r == Returned(true) then Some(SweepComplete) else None)
      ensures b.Calm() ==> r.Returned? && b.clock == old(b.clock) && b.charges.rows == old(b.charges.rows)
      ensures b.Calm() && old(Matches(b.orders.rows, o, STOCK_RESERVED)) ==>
                r.value && Settles(old(b.orders.rows), b.orders.rows, o, PAYMENT_AUTHORIZED)
    {
      r := Attempt(a, o, SweepResolve(Some(charge)), STOCK_RESERVED, PAYMENT_AUTHORIZED,
                   TransitionPatch(None, Some(charge), None));
    }

    /** A paid order is settled at once instead of waiting for the next sweep. */
    method FinishPaid(a: ActorId, ghost o: OrderId, charge: PaymentResult, result: ReconciliationResult)
      returns (r: Outcome<()>)
      requires b.Valid() && a in b.actors && b.actors[a] == Actor(o, SweepResolve(Some(charge))) && charge.success
      modifies b.Footprint(), result
      ensures b.Valid() && Onward(old(b.history), b.history, a) && a !in b.actors && result.errors == old(result.errors)
      ensures FailsOrNot(old(b.ticks), r.Threw?) && (r.Returned? ==> Past(b, o, STOCK_RESERVED))
      ensures CountsHonestly(old(result.Count()), result.Count(), b.orders.rows, o)
      ensures b.Calm() ==> b.clock == old(b.clock) && b.charges.rows == old(b.charges.rows)
      ensures b.Calm() && old(Matches(b.orders.rows, o, STOCK_RESERVED)) ==>
                && r.Returned? && Settles(old(b.orders.rows), b.orders.rows, o, COMPLETED)
                && result.Count() == old(result.Count()).Plus(Counted(STOCK_RESERVED, COMPLETED))
    {
      var advanced :- MarkPaid(a, o, charge);
      if !advanced {
        return Returned(());
      }
      ghost var mid := b.history;
      r := CloseAtOnce(a, o, result);
      OnwardOn(old(b.history), mid, b.history, a);
    }

    /** Counts the order as authorized and completes it. */
    method CloseAtOnce(a: ActorId, ghost o: OrderId, result: ReconciliationResult) returns (r: Outcome<()>)
      requires b.Valid() && a in b.actors && b.actors[a] == Actor(o, SweepComplete)
      modifies b.Footprint(), result
      ensures b.Valid() && Onward(old(b.history), b.history, a) && a !in b.actors && result.errors == old(result.errors)
      ensures FailsOrNot(old(b.ticks), r.Threw?) && (r.Returned? ==> Past(b, o, PAYMENT_AUTHORIZED))
      ensures CountsHonestly(old(result.Count()), result.Count(), b.orders.rows, o)
      ensures b.Calm() ==> b.clock == old(b.clock) && b.charges.rows == old(b.charges.rows)
      ensures b.Calm() && old(Matches(b.orders.rows, o, PAYMENT_AUTHORIZED)) ==>
                && r.Returned? && Settles(old(b.orders.rows), b.orders.rows, o, COMPLETED)
                && result.Count() == old(result.Count()).Plus(Counted(STOCK_RESERVED, COMPLETED))
    {
      result.authorized := result.authorized + 1;
      r := ResolveAuthorized(a, o, result);
    }

    /** The provider declined, or never heard of the order. */
    method MarkUnpaid(a: ActorId, ghost o: OrderId, charge: Option<PaymentResult>) returns (r: Outcome<bool>)
      requires b.Valid() && a in b.actors && b.actors[a] == Actor(o, SweepResolve(charge))
      requires charge == None || !charge.value.success
      modifies b.Footprint()
      ensures b.Valid() && Onward(old(b.history), b.history, a)
      ensures FailsOrNot(old(b.ticks), r.Threw?) && (r.Returned? ==> Past(b, o, STOCK_RESERVED))
      ensures Stands(b.actors, a, o, if r == Returned(true) then Some(SweepRelease) else None)
      ensures b.Calm() ==> r.Returned? && b.clock == old(b.clock) && b.charges.rows == old(b.charges.rows)
      ensures b.Calm() && old(Matches(b.orders.rows, o, STOCK_RESERVED)) ==>
                r.value && Settles(old(b.orders.rows), b.orders.rows, o, COMPENSATING)
    {
      r := Attempt(a, o, SweepResolve(charge), STOCK_RESERVED, COMPENSATING, UnpaidPatch(charge));
    }

    /** The stock of an order that was never paid for is owed back. */
    method UnwindUnpaid(a: ActorId, ghost o: OrderId, charge: Option<PaymentResult>, result: ReconciliationResult)
      returns (r: Outcome<()>)
      requires b.Valid() && a in b.actors && b.actors[a] == Actor(o, SweepResolve(charge))
      requires charge == None || !charge.value.success
      modifies b.Footprint(), result
      ensures b.Valid() && Onward(old(b.history), b.history, a) && a !in b.actors && result.errors == old(result.errors)
      ensures FailsOrNot(old(b.ticks), r.Threw?) && (r.Returned? ==> Past(b, o, STOCK_RESERVED))
      ensures CountsHonestly(old(result.Count()), result.Count(), b.orders.rows, o)
      ensures b.Calm() ==> b.clock == old(b.clock) && b.charges.rows == old(b.charges.rows)
      ensures b.Calm() && old(Matches(b.orders.rows, o, STOCK_RESERVED)) ==>
                && r.Returned? && Settles(old(b.orders.rows), b.orders.rows, o, COMPENSATED)
                && result.Count() == old(result.Count()).Plus(Counted(STOCK_RESERVED, COMPENSATED))
    {
      var compensating :- MarkUnpaid(a, o, charge);
      if !compensating {
        return Returned(());
      }
      ghost var mid := b.history;
      r := ReleaseAndSettle(a, o, result);
      OnwardOn(old(b.history), mid, b.history, a);
    }

    /** Ask the provider what happened instead of guessing. */
    method ResolveReserved(a: ActorId, ghost o: OrderId, result: ReconciliationResult) returns (r: Outcome<()>)
      requires b.Valid() && a in b.actors && b.actors[a] == Actor(o, SweepChargeLookup)
      modifies b.Footprint(), result
      ensures b.Valid() && Onward(old(b.history), b.history, a) && a !in b.actors && result.errors == old(result.errors)
      ensures FailsOrNot(old(b.ticks), r.Threw?) && (r.Returned? ==> Past(b, o, STOCK_RESERVED))
      ensures CountsHonestly(old(result.Count()), result.Count(), b.orders.rows, o)
      ensures b.Calm() ==> b.clock == old(b.clock) && b.charges.rows == old(b.charges.rows)
      ensures b.Calm() && old(Matches(b.orders.rows, o, STOCK_RESERVED)) ==>
                var end := Verdict(STOCK_RESERVED, Lookup(old(b.charges.rows), o));
                && r.Returned? && Settles(old(b.orders.rows), b.orders.rows, o, end)
                && result.Count() == old(result.Count()).Plus(Counted(STOCK_RESERVED, end))
    {
      var charge :- LookupCharge(b, a);
      ghost var mid := b.history;
      assert b.Calm() ==>
          (charge.Some? && charge.value.success <==> Verdict(STOCK_RESERVED, Lookup(b.charges.rows, o)) == COMPLETED);
      if charge.Some? && charge.value.success {
        r := FinishPaid(a, o, charge.value, result);
      } else {
        r := UnwindUnpaid(a, o, charge, result);
      }
      OnwardOn(old(b.history), mid, b.history, a);
    }

    /** The handler of each live status. */
    method Resolve(status: OrderStatus, a: ActorId, ghost o: OrderId, result: ReconciliationResult)
      returns (r: Outcome<()>)
      requires b.Valid() && !IsTerminal(status) && a in b.actors && b.actors[a] == Actor(o, SweepStart(status))
      modifies b.Footprint(), result
      ensures b.Valid() && Onward(old(b.history), b.history, a) && a !in b.actors && result.errors == old(result.errors)
      ensures FailsOrNot(old(b.ticks), r.Threw?) && (r.Returned? ==> Past(b, o, status))
      ensures CountsHonestly(old(result.Count()), result.Count(), b.orders.rows, o)
      ensures b.Calm() ==> b.clock == old(b.clock) && b.charges.rows == old(b.charges.rows)
      ensures b.Calm() && old(Matches(b.orders.rows, o, status)) ==>
                var end := Verdict(status, Lookup(old(b.charges.rows), o));
                && r.Returned? && Settles(old(b.orders.rows), b.orders.rows, o, end)
                && result.Count() == old(result.Count()).Plus(Counted(status, end))
    {
      match status {
        case PENDING => r := ResolvePending(a, o, result);
        case STOCK_RESERVED => r := ResolveReserved(a, o, result);
        case PAYMENT_AUTHORIZED => r := ResolveAuthorized(a, o, result);
        case COMPENSATING => r := ReleaseAndSettle(a, o, result);
      }
    }

    /** Handles a claimed order. A handler that throws is one error, and nothing worse. */
    method HandleClaimed(status: OrderStatus, a: ActorId, ghost o: OrderId, result: ReconciliationResult)
      requires b.Valid() && !IsTerminal(status) && a in b.actors && b.actors[a] == Actor(o, SweepStart(status))
      modifies b.Footprint(), result
      ensures b.Valid() && Onward(old(b.history), b.history, a) && old(b.ticks) < b.ticks
      ensures result.errors == old(result.errors) + if b.faults(b.ticks) then 1 else 0
      ensures !b.faults(b.ticks) ==> Past(b, o, status)
      ensures CountsHonestly(old(result.Count()), result.Count(), b.orders.rows, o)
      ensures b.Calm() ==> b.clock == old(b.clock) && b.charges.rows == old(b.charges.rows)
      ensures b.Calm() && old(Matches(b.orders.rows, o, status)) ==>
                var end := Verdict(status, Lookup(old(b.charges.rows), o));
                && Settles(old(b.orders.rows), b.orders.rows, o, end)
                && result.Count() == old(result.Count()).Plus(Counted(status, end))
    {
      var r := Resolve(status, a, o, result);
      if r.Threw? {
        result.errors := result.errors + 1;
      }
    }

    /**
     * One round of the batch: claim and handle one order, or report that none is
     * left. It throws exactly if the claim does; `claim` is the moment of the claim.
     */
    method SweepOne(status: OrderStatus, result: ReconciliationResult)
      returns (claimed: Outcome<Option<OrderId>>, ghost claim: History)
      requires b.Valid() && !IsTerminal(status)
      modifies b.Footprint(), result
      ensures b.Valid() && Within(old(b.history), b.history)
      ensures claimed.Threw? <==> b.faults(old(b.ticks) + 1)
      ensures !(claimed.Returned? && claimed.value.Some?) ==>
                && b.ticks == old(b.ticks) + 1 && result.errors == old(result.errors)
                && result.Count() == old(result.Count())
      ensures claimed == Returned(None) ==> NoneClaimable(status)
      ensures claimed.Returned? && claimed.value.Some? ==>
                && old(b.ticks) + 1 < b.ticks
                && result.errors == old(result.errors) + (if b.faults(b.ticks) then 1 else 0)
                && (!b.faults(b.ticks) ==> Past(b, claimed.value.value, status))
                && CountsHonestly(old(result.Count()), result.Count(), b.orders.rows, claimed.value.value)
                && ClaimedSince(old(b.history), claim, status, claimed.value.value)
      ensures b.Calm() ==> b.clock == old(b.clock) && b.charges.rows == old(b.charges.rows)
      ensures b.Calm() && claimed == Returned(None) ==> b.orders.rows == old(b.orders.rows)
      ensures b.Calm() && claimed.Returned? && claimed.value.Some? ==>
                Undisturbed(old(b.orders.rows), status, claimed.value.value, old(result.Count()), result)
    {
      ghost var before, count := b.orders.rows, result.Count();
      var a;
      claimed, a := ClaimOrder(b, status);
      claim := b.history;
      if claimed.Threw? || claimed.value == None {
        return;
      }
      ghost var leased := b.orders.rows;
      HandleClaimed(status, a, claimed.value.value, result);
      OnwardIsWithin(claim, b.history, a);
      WithinOn(old(b.history), claim, b.history);
      if b.Calm() {
        ThenUndisturbed(before, leased, status, claimed.value.value, count, result);
      }
    }

    /** A claim of this order, after that moment. */
    ghost predicate ClaimedSince(from: History, claim: History, status: OrderStatus, o: OrderId)
      reads b
    {
      && claim.Then? && claim.step.Claim? && claim.step.status == status && claim.step.order == o
      && Within(from, claim.before) && Within(claim, b.history)
    }

    /** The lease taken first does not show once the order is settled. */
    lemma ThenUndisturbed(before: Orders, leased: Orders, status: OrderStatus, o: OrderId, count: Tally,
                          result: ReconciliationResult)
      requires !IsTerminal(status) && IsOldestClaimable(before, o, status, b.config.staleAfterMs, b.clock)
      requires leased == Leased(before, o, b.config.leaseMs, b.clock)
      requires Settles(leased, b.orders.rows, o, Verdict(status, Lookup(b.charges.rows, o)))
      requires result.Count() == count.Plus(Counted(status, Verdict(status, Lookup(b.charges.rows, o))))
      ensures Undisturbed(before, status, o, count, result)
    {
      ThenSettles(before, leased, b.orders.rows, o, Verdict(status, Lookup(b.charges.rows, o)));
    }

    ghost predicate NoneClaimable(status: OrderStatus)
      reads b.Footprint()
    {
      forall o :: !Claimable(b.orders.rows, o, status, b.config.staleAfterMs, b.clock)
    }

    /** The oldest claimable order was settled and counted, and nothing else has changed. */
    ghost predicate Undisturbed(before: Orders, status: OrderStatus, o: OrderId, count: Tally,
                                result: ReconciliationResult)
      requires !IsTerminal(status)
      reads b.Footprint(), result
    {
      && IsOldestClaimable(before, o, status, b.config.staleAfterMs, b.clock)
      && Settles(before, b.orders.rows, o, Verdict(status, Lookup(b.charges.rows, o)))
      && result.Count() == count.Plus(Counted(status, Verdict(status, Lookup(b.charges.rows, o))))
    }

    /** An undisturbed batch so far. */
    ghost predicate OnTrack(first: Orders, charges: ChargeRows, now: nat, status: OrderStatus, settled: seq<OrderId>,
                            start: Tally, result: ReconciliationResult)
      requires !IsTerminal(status)
      reads b.Footprint(), result
    {
      && b.charges.rows == charges && b.clock == now
      && Explains(first, b.orders.rows, charges, status, settled, start, result.Count())
      && Oldest(first, Stales(first, status, b.config.staleAfterMs, now), Elements(settled))
    }

    /** A batch under way: these are its rounds, and nothing was performed since. */
    ghost predicate Batching(rounds: Rounds, origin: Rounds, status: OrderStatus, errors: nat,
                             result: ReconciliationResult)
      reads b.Footprint(), result
    {
      && rounds.Origin() == origin && rounds.Ok(status, b.faults) && b.ticks == rounds.Ticks()
      && Within(rounds.Moment(), b.history) && result.errors == errors + rounds.Failed(b.faults)
    }

    /** A batch that is over: it is full, or its next claim threw, or found nothing. */
    ghost predicate Batched(rounds: Rounds, origin: Rounds, status: OrderStatus, errors: nat,
                            result: ReconciliationResult, threw: bool)
      reads b.Footprint(), result
    {
      && rounds.Origin() == origin && rounds.Ok(status, b.faults)
      && rounds.Over(batchSize, b.faults, threw) && b.ticks == rounds.End(batchSize)
      && Within(rounds.Moment(), b.history) && result.errors == errors + rounds.Failed(b.faults)
      && (!threw && rounds.Count() < batchSize ==> NoneClaimable(status))
    }

    lemma RoundIsOver(rounds: Rounds, origin: Rounds, before: History, claim: History, status: OrderStatus,
                      errors: nat, result: ReconciliationResult)
      requires rounds.Origin() == origin && rounds.Ok(status, b.faults) && Within(rounds.Moment(), before)
      requires claim.Then? && claim.step.Claim? && claim.step.status == status
      requires Within(before, claim.before) && Within(claim, b.history)
      requires rounds.Ticks() + 1 < b.ticks && !b.faults(rounds.Ticks() + 1)
      requires result.errors == errors + rounds.Failed(b.faults) + if b.faults(b.ticks) then 1 else 0
      ensures Batching(Round(rounds, claim, b.ticks), origin, status, errors, result)
      ensures Round(rounds, claim, b.ticks).Count() == rounds.Count() + 1
    {
      WithinOn(rounds.Moment(), before, claim.before);
      RoundAdded(rounds, claim, b.ticks, status, b.faults);
    }

    lemma BatchStops(rounds: Rounds, origin: Rounds, before: History, status: OrderStatus, errors: nat,
                     result: ReconciliationResult, threw: bool)
      requires rounds.Origin() == origin && rounds.Ok(status, b.faults) && rounds.Count() < batchSize
      requires Within(rounds.Moment(), before) && Within(before, b.history)
      requires b.ticks == rounds.Ticks() + 1 && (threw <==> b.faults(b.ticks))
      requires result.errors == errors + rounds.Failed(b.faults) && (threw || NoneClaimable(status))
      ensures Batched(rounds, origin, status, errors, result, threw)
    {
      WithinOn(rounds.Moment(), before, b.history);
    }

    /** One more round on top of the rounds so far. */
    method NextRound(status: OrderStatus, result: ReconciliationResult, ghost rounds: Rounds, ghost origin: Rounds,
                     ghost errors: nat)
      returns (claimed: Outcome<Option<OrderId>>, ghost now: Rounds)
      requires b.Valid() && !IsTerminal(status)
      requires Batching(rounds, origin, status, errors, result) && rounds.Count() < batchSize
      modifies b.Footprint(), result
      ensures b.Valid() && Within(old(b.history), b.history)
      ensures if claimed.Returned? && claimed.value.Some?
              then now.Count() == rounds.Count() + 1 && Batching(now, origin, status, errors, result)
              else now == rounds && Batched(now, origin, status, errors, result, claimed.Threw?)
      ensures b.Calm() ==> claimed.Returned? && b.clock == old(b.clock) && b.charges.rows == old(b.charges.rows)
      ensures b.Calm() && claimed == Returned(None) ==>
                b.orders.rows == old(b.orders.rows) && result.Count() == old(result.Count())
      ensures b.Calm() && claimed.Returned? && claimed.value.Some? ==>
                Undisturbed(old(b.orders.rows), status, claimed.value.value, old(result.Count()), result)
    {
      ghost var mid := b.history;
      now := rounds;
      ghost var claim;
      claimed, claim := SweepOne(status, result);
      if claimed.Returned? && claimed.value.Some? {
        RoundIsOver(rounds, origin, mid, claim, status, errors, result);
        now := Round(rounds, claim, b.ticks);
      } else {
        BatchStops(rounds, origin, mid, status, errors, result, claimed.Threw?);
      }
    }

    /** A round that was not disturbed keeps the batch on track. */
    lemma TrackGoesOn(first: Orders, before: Orders, charges: ChargeRows, status: OrderStatus, settled: seq<OrderId>,
                      o: OrderId, start: Tally, count: Tally, result: ReconciliationResult)
      requires !IsTerminal(status) && b.charges.rows == charges
      requires Explains(first, before, charges, status, settled, start, count)
      requires Oldest(first, Stales(first, status, b.config.staleAfterMs, b.clock), Elements(settled))
      requires Undisturbed(before, status, o, count, result)
      ensures OnTrack(first, charges, b.clock, status, settled + [o], start, result)
    {
      ExplainsOneMore(first, before, b.orders.rows, charges, status, settled, o, start, count, result.Count());
      OldestNext(first, before, charges, status, settled, o, b.config.staleAfterMs, b.clock);
    }

    /**
     * One status: claim stale orders one by one, at most `batchSize` of them. An
     * error costs its order nothing but the wait for the lease to expire: whatever
     * fails and interferes, the batch goes on until it is full, or a claim finds
     * nothing or throws. Undisturbed, it settles the oldest stale orders, as many
     * as it may, and nothing else.
     */
    method SweepState(status: OrderStatus, result: ReconciliationResult)
      returns (r: Outcome<()>, ghost rounds: Rounds, ghost settled: seq<OrderId>)
      requires b.Valid() && !IsTerminal(status)
      modifies b.Footprint(), result
      ensures b.Valid() && Within(old(b.history), b.history)
      ensures Batched(rounds, NoRound(old(b.history), old(b.ticks)), status, old(result.errors), result, r.Threw?)
      ensures b.Calm() ==>
                && r.Returned? && OnTrack(old(b.orders.rows), old(b.charges.rows), old(b.clock), status, settled,
                                          old(result.Count()), result)
                && OldestBatch(old(b.orders.rows), Stales(old(b.orders.rows), status, b.config.staleAfterMs, b.clock),
                               batchSize, Elements(settled))
    {
      ghost var first, charges, start, now := b.orders.rows, b.charges.rows, result.Count(), b.clock;
      ghost var origin, errors := NoRound(b.history, b.ticks), result.errors;
      rounds, settled := origin, [];
      NothingYet(first, charges, status, start);
      var i := 0;
      while i < batchSize
        invariant 0 <= i <= batchSize && b.Valid() && Within(old(b.history), b.history)
        invariant rounds.Count() == i && Batching(rounds, origin, status, errors, result)
        invariant b.Calm() ==> |settled| == i && OnTrack(first, charges, now, status, settled, start, result)
      {
        ghost var mid, before, count := b.history, b.orders.rows, result.Count();
        var claimed;
        claimed, rounds := NextRound(status, result, rounds, origin, errors);
        WithinOn(old(b.history), mid, b.history);
        if claimed.Threw? {
          return Threw, rounds, settled;
        }
        if claimed.value == None {
          if b.Calm() {
            BatchIsOver(first, b.orders.rows, charges, status, settled, b.config.staleAfterMs, now, batchSize);
          }
          return Returned(()), rounds, settled;
        }
        if b.Calm() {
          TrackGoesOn(first, before, charges, status, settled, claimed.value.value, start, count, result);
        }
        settled := settled + [claimed.value.value];
        i := i + 1;
      }
      if b.Calm() {
        BatchIsOver(first, b.orders.rows, charges, status, settled, b.config.staleAfterMs, now, batchSize);
      }
      return Returned(()), rounds, settled;
    }

    /** An undisturbed pass that has swept the first `n` statuses. */
    ghost predicate Progress(n: nat, result: ReconciliationResult, first: Orders, charges: ChargeRows, now: nat,
                             settled: seq<OrderId>)
      requires n <= 4
      reads b.Footprint(), result
    {
      && b.Calm() && b.charges.rows == charges && b.clock == now
      && PassOk(n, first, b.orders.rows, charges, b.config.staleAfterMs, now, batchSize, settled, result.Count())
    }

    /** A pass whose batches so far are these. */
    ghost predicate Logged(log: Log, origin: Log, result: ReconciliationResult, threw: bool)
      reads b.Footprint(), result
    {
      && log.Origin() == origin && log.Ok(batchSize, b.faults, threw) && b.ticks == log.End(batchSize)
      && Within(log.Moment(), b.history) && result.errors == log.Failed(b.faults)
    }

    /** One of the four statuses of a pass; `log` and `settled` say what the earlier ones did. */
    method SweepNext(ghost n: nat, status: OrderStatus, result: ReconciliationResult, ghost first: Orders,
                     ghost charges: ChargeRows, ghost now: nat, ghost log: Log, ghost origin: Log,
                     ghost settled: seq<OrderId>)
      returns (r: Outcome<()>, ghost longer: Log, ghost more: seq<OrderId>)
      requires b.Valid() && n < 4 && SWEPT[n] == status && log.Count() == n && Logged(log, origin, result, false)
      modifies b.Footprint(), result
      ensures b.Valid() && Within(old(b.history), b.history)
      ensures longer.Count() == n + 1 && Logged(longer, origin, result, r.Threw?)
      ensures old(Progress(n, result, first, charges, now, settled)) ==>
                r.Returned? && Progress(n + 1, result, first, charges, now, more)
    {
      ghost var ready, before, count := Progress(n, result, first, charges, now, settled), b.orders.rows,
           result.Count();
      ghost var mid := b.history;
      ghost var rounds, batch;
      r, rounds, batch := SweepState(status, result);
      WithinOn(log.Moment(), mid, b.history);
      longer, more := Batch(log, rounds), settled + batch;
      if ready {
        PassGoesOn(n, first, before, b.orders.rows, charges, b.config.staleAfterMs, now, batchSize, settled, batch,
                   count);
      }
    }

    /**
     * One pass over all live statuses. Whatever interferes, it only adds to the
     * history, every status is visited, and each handler that throws is one error:
     * only a claim that throws ends the pass. Undisturbed, it settles the oldest
     * stale orders of each status, as many as a batch allows, at the end that the
     * provider's record demands, and counts each of them once, as what it became;
     * if every live order is stale and the batches are large enough, these are all.
     */
    method Sweep() returns (r: Outcome<ReconciliationResult>, ghost log: Log, ghost settled: seq<OrderId>)
      requires b.Valid()
      modifies b.Footprint()
      ensures b.Valid() && Within(old(b.history), b.history) && WorldEvolves(old(b.Snapshot()), b.Snapshot())
      ensures r.Returned? ==> fresh(r.value)
      ensures !enabled ==>
                && r.Returned? && r.value.Count() == NOTHING && r.value.errors == 0
                && b.Snapshot() == old(b.Snapshot()) && b.history == old(b.history)
      ensures enabled ==>
                && log.Origin() == NoBatch(old(b.history), old(b.ticks)) && log.Ok(batchSize, b.faults, r.Threw?)
                && b.ticks == log.End(batchSize)
                && (r.Returned? ==> log.Count() == 4 && r.value.errors == log.Failed(b.faults))
      ensures enabled && b.Calm() ==>
                && r.Returned? && r.value.errors == 0
                && PassOk(4, old(b.orders.rows), b.orders.rows, old(b.charges.rows), b.config.staleAfterMs,
                          old(b.clock), batchSize, settled, r.value.Count())
                && r.value.Count().Settled() == |settled|
      ensures enabled && b.Calm() && BatchesFit(old(b.orders.rows), batchSize, b.config.staleAfterMs, old(b.clock)) ==>
                && Reconciled(old(b.orders.rows), b.orders.rows, old(b.charges.rows))
                && IsLiveList(old(b.orders.rows), settled)
    {
      var result := new ReconciliationResult();
      log, settled := NoBatch(b.history, b.ticks), [];
      if !enabled {
        b.Since(b.history);
        return Returned(result), log, settled;
      }
      ghost var first, charges, now := b.orders.rows, b.charges.rows, b.clock;
      PassStarts(first, charges, b.config.staleAfterMs, now, batchSize);
      var swept;
      swept, log, settled := SweepStates(result, first, charges, now);
      if b.Calm() {
        Spotless(log, b.faults);
        TallySettles(first, charges, settled);
        if BatchesFit(first, batchSize, b.config.staleAfterMs, now) {
          AllSwept(first, b.orders.rows, charges, b.config.staleAfterMs, now, batchSize, settled);
        }
      }
      b.Since(old(b.history));
      r := if swept.Threw? then Threw else Returned(result);
    }

    /** The four statuses, in the order of the saga. */
    method SweepStates(result: ReconciliationResult, ghost first: Orders, ghost charges: ChargeRows, ghost now: nat)
      returns (r: Outcome<()>, ghost log: Log, ghost settled: seq<OrderId>)
      requires b.Valid() && result.errors == 0
      modifies b.Footprint(), result
      ensures b.Valid() && Within(old(b.history), b.history)
      ensures Logged(log, NoBatch(old(b.history), old(b.ticks)), result, r.Threw?)
      ensures r.Returned? ==> log.Count() == 4
      ensures old(Progress(0, result, first, charges, now, [])) ==>
                r.Returned? && Progress(4, result, first, charges, now, settled)
    {
      ghost var origin := NoBatch(b.history, b.ticks);
      r, log, settled := SweepNext(0, PENDING, result, first, charges, now, origin, origin, []);
      if r.Returned? {
        ghost var mid := b.history;
        r, log, settled := SweepReservedOn(result, first, charges, now, log, origin, settled);
        WithinOn(old(b.history), mid, b.history);
      }
    }

    method SweepReservedOn(result: ReconciliationResult, ghost first: Orders, ghost charges: ChargeRows,
                           ghost now: nat, ghost log: Log, ghost origin: Log, ghost settled: seq<OrderId>)
      returns (r: Outcome<()>, ghost longer: Log, ghost more: seq<OrderId>)
      requires b.Valid() && log.Count() == 1 && Logged(log, origin, result, false)
      modifies b.Footprint(), result
      ensures b.Valid() && Within(old(b.history), b.history)
      ensures Logged(longer, origin, result, r.Threw?) && (r.Returned? ==> longer.Count() == 4)
      ensures old(Progress(1, result, first, charges, now, settled)) ==>
                r.Returned? && Progress(4, result, first, charges, now, more)
    {
      r, longer, more := SweepNext(1, STOCK_RESERVED, result, first, charges, now, log, origin, settled);
      if r.Returned? {
        ghost var mid := b.history;
        r, longer, more := SweepAuthorizedOn(result, first, charges, now, longer, origin, more);
        WithinOn(old(b.history), mid, b.history);
      }
    }

    method SweepAuthorizedOn(result: ReconciliationResult, ghost first: Orders, ghost charges: ChargeRows,
                             ghost now: nat, ghost log: Log, ghost origin: Log, ghost settled: seq<OrderId>)
      returns (r: Outcome<()>, ghost longer: Log, ghost more: seq<OrderId>)
      requires b.Valid() && log.Count() == 2 && Logged(log, origin, result, false)
      modifies b.Footprint(), result
      ensures b.Valid() && Within(old(b.history), b.history)
      ensures Logged(longer, origin, result, r.Threw?) && (r.Returned? ==> longer.Count() == 4)
      ensures old(Progress(2, result, first, charges, now, settled)) ==>
                r.Returned? && Progress(4, result, first, charges, now, more)
    {
      r, longer, more := SweepNext(2, PAYMENT_AUTHORIZED, result, first, charges, now, log, origin, settled);
      if r.Returned? {
        ghost var mid := b.history;
        r, longer, more := SweepNext(3, COMPENSATING, result, first, charges, now, longer, origin, more);
        WithinOn(old(b.history), mid, b.history);
      }
    }
  }
}
