/**
 * Which warehouses a delivery tried, and what it found there
 * (src/inventory/inventory.service.ts:49-75), read off a recorded history.
 *
 * The stock moves on between the ranking and the attempts. So the statements
 * name moments: a warehouse was short when the ranking looked, or when its own
 * attempt ran.
 */
module Rankings {
  import opened Wrappers
  import opened StockLedger
  import opened Orders
  import opened SagaProtocol
  import opened SagaInvariant
  import opened Histories

  datatype Reservation = ReservedAt(warehouse: WarehouseId, replayed: bool) | NoWarehouse

  function StockAt(h: History): Stock {
    h.state.inventory.stock
  }

  /**
   * Between `from` and `now` there was the moment `at`, at which the actor stood
   * like this, and the next thing to happen was its operation.
   */
  ghost predicate Moment(from: History, at: History, now: History, a: ActorId, actor: Actor) {
    Within(from, at) && ActedAt(at, now, a) && a in at.state.actors && at.state.actors[a] == actor
  }

  /** The moments of the attempts at the first candidates, one after the other. */
  ghost predicate AttemptedAt(from: History, tried: seq<History>, now: History, a: ActorId, o: OrderId,
                              items: seq<Item>, candidates: seq<WarehouseId>)
  {
    |tried| <= |candidates| && forall j :: 0 <= j < |tried| ==> AttemptAt(from, tried, now, a, o, items, candidates, j)
  }

  ghost predicate AttemptAt(from: History, tried: seq<History>, now: History, a: ActorId, o: OrderId,
                            items: seq<Item>, candidates: seq<WarehouseId>, j: nat)
    requires j < |tried| <= |candidates|
  {
    Moment(if j == 0 then from else tried[j - 1], tried[j], now, a, Actor(o, Trying(items, candidates[j..])))
  }

  /** The j-th attempt found its candidate short. */
  ghost predicate ShortAt(candidates: seq<WarehouseId>, items: seq<Item>, tried: seq<History>, j: nat) {
    j < |tried| && j < |candidates| && DebitAll(StockAt(tried[j]), candidates[j], items) == None
  }

  /** All attempts so far found their candidates short. */
  ghost predicate AllShort(candidates: seq<WarehouseId>, items: seq<Item>, tried: seq<History>) {
    forall j: nat :: j < |tried| ==> ShortAt(candidates, items, tried, j)
  }

  /** What the attempts made say about the outcome: all before the last were short, the last one not if it reserved. */
  ghost predicate Tried(outcome: Reservation, candidates: seq<WarehouseId>, items: seq<Item>, tried: seq<History>) {
    && |tried| <= |candidates|
    && match outcome
       case NoWarehouse => |tried| == |candidates| && AllShort(candidates, items, tried)
       case ReservedAt(warehouse, replayed) =>
         !replayed ==>
           && tried != [] && warehouse == candidates[|tried| - 1]
           && DebitAll(StockAt(tried[|tried| - 1]), warehouse, items).Some?
           && AllShort(candidates, items, tried[..|tried| - 1])
  }

  lemma ShortAttempt(candidates: seq<WarehouseId>, items: seq<Item>, tried: seq<History>, at: History)
    requires |tried| < |candidates| && AllShort(candidates, items, tried)
    requires DebitAll(StockAt(at), candidates[|tried|], items) == None
    ensures AllShort(candidates, items, tried + [at])
  {
    var longer := tried + [at];
    forall j: nat | j < |longer| ensures ShortAt(candidates, items, longer, j) {
      assert j < |tried| ==> ShortAt(candidates, items, tried, j);
    }
  }

  lemma LastAttempt(outcome: Reservation, candidates: seq<WarehouseId>, items: seq<Item>, tried: seq<History>,
                    at: History)
    requires |tried| < |candidates| && AllShort(candidates, items, tried) && outcome.ReservedAt?
    requires !outcome.replayed ==>
              outcome.warehouse == candidates[|tried|] && DebitAll(StockAt(at), candidates[|tried|], items).Some?
    ensures Tried(outcome, candidates, items, tried + [at])
  {
    assert (tried + [at])[..|tried|] == tried;
  }

  ghost predicate SawAt(tried: seq<History>, j: nat, stock: Stock) {
    j < |tried| && StockAt(tried[j]) == stock
  }

  ghost predicate AllSaw(tried: seq<History>, stock: Stock) {
    forall j: nat :: j < |tried| ==> SawAt(tried, j, stock)
  }

  lemma OneMoreSaw(tried: seq<History>, at: History, stock: Stock)
    requires AllSaw(tried, stock) && StockAt(at) == stock
    ensures AllSaw(tried + [at], stock)
  {
    forall j: nat | j < |tried + [at]| ensures SawAt(tried + [at], j, stock) {
      assert j < |tried| ==> SawAt(tried, j, stock);
    }
  }

  /** If every attempt found the stock the ranking saw, the outcome is the nearest fit of that stock. */
  lemma TriedFindsNearest(stock: Stock, ranked: seq<WarehouseId>, items: seq<Item>, outcome: Reservation,
                          tried: seq<History>)
    requires Tried(outcome, Candidates(stock, ranked, items), items, tried)
    requires AllSaw(tried, stock)
    ensures outcome.NoWarehouse? ==> NoFit(stock, ranked, items)
    ensures outcome.ReservedAt? && !outcome.replayed ==> NearestFit(stock, ranked, items, outcome.warehouse)
  {
    var candidates := Candidates(stock, ranked, items);
    forall j: nat | j < |tried| && ShortAt(candidates, items, tried, j)
      ensures DebitAll(stock, candidates[j], items) == None
    {
      assert SawAt(tried, j, stock);
    }
    if outcome.NoWarehouse? {
      assert forall j: nat :: j < |tried| ==> ShortAt(candidates, items, tried, j);
      FirstFitIsNearest(stock, ranked, items, |tried|);
    } else if !outcome.replayed {
      assert SawAt(tried, |tried| - 1, stock);
      forall j: nat | j < |tried| - 1 ensures ShortAt(candidates, items, tried, j) {
        assert ShortAt(candidates, items, tried[..|tried| - 1], j);
      }
      FirstFitIsNearest(stock, ranked, items, |tried| - 1);
    }
  }

  /** The warehouse could not serve the order when the ranking looked, or when its own attempt ran. */
  ghost predicate WasShort(warehouse: WarehouseId, ranked: seq<WarehouseId>, items: seq<Item>,
                           ranking: History, tried: seq<History>)
  {
    var candidates := Candidates(StockAt(ranking), ranked, items);
    || DebitAll(StockAt(ranking), warehouse, items) == None
    || exists j: nat :: ShortAt(candidates, items, tried, j) && candidates[j] == warehouse
  }

  /**
   * `warehouse` is ranked, it had enough at the last attempt, and every nearer
   * one was short at the ranking or at its own attempt.
   */
  ghost predicate NearestInTime(warehouse: WarehouseId, ranked: seq<WarehouseId>, items: seq<Item>,
                                ranking: History, tried: seq<History>)
  {
    && tried != [] && DebitAll(StockAt(tried[|tried| - 1]), warehouse, items).Some?
    && exists i :: 0 <= i < |ranked| && ranked[i] == warehouse
                   && forall j :: 0 <= j < i ==> WasShort(ranked[j], ranked, items, ranking, tried)
  }

  /** Where the candidates of the first warehouses end, those of all of them go on. */
  lemma {:induction false} CandidateIndex(stock: Stock, ranked: seq<WarehouseId>, items: seq<Item>, k: nat)
    returns (i: nat)
    requires k < |Candidates(stock, ranked, items)|
    ensures i < |ranked| && ranked[i] == Candidates(stock, ranked, items)[k]
    ensures Candidates(stock, ranked[..i], items) == Candidates(stock, ranked, items)[..k]
  {
    var n := |ranked| - 1;
    var rest := Candidates(stock, ranked[..n], items);
    if k < |rest| {
      i := CandidateIndex(stock, ranked[..n], items, k);
      assert ranked[..n][..i] == ranked[..i];
    } else {
      i := n;
    }
  }

  /** A warehouse the pre-filter dropped could not serve the order; one it kept is a candidate. */
  lemma {:induction false} DroppedOrCandidate(stock: Stock, ranked: seq<WarehouseId>, items: seq<Item>, j: nat)
    requires j < |ranked|
    ensures DebitAll(stock, ranked[j], items) == None || ranked[j] in Candidates(stock, ranked, items)
  {
    var n := |ranked| - 1;
    if j < n {
      DroppedOrCandidate(stock, ranked[..n], items, j);
    } else if DebitAll(stock, ranked[n], items).Some? {
      FitLooksSufficient(stock, ranked[n], items);
    }
  }

  /** Whatever the interference: no warehouse that could serve the order all the time was passed over. */
  lemma NearerWereShort(ranked: seq<WarehouseId>, items: seq<Item>, outcome: Reservation, ranking: History,
                        tried: seq<History>)
    requires Tried(outcome, Candidates(StockAt(ranking), ranked, items), items, tried)
    ensures outcome.NoWarehouse? ==> forall j :: 0 <= j < |ranked| ==>
              WasShort(ranked[j], ranked, items, ranking, tried)
    ensures outcome.ReservedAt? && !outcome.replayed ==> NearestInTime(outcome.warehouse, ranked, items, ranking, tried)
  {
    var candidates := Candidates(StockAt(ranking), ranked, items);
    if outcome.NoWarehouse? {
      forall j | 0 <= j < |ranked| ensures WasShort(ranked[j], ranked, items, ranking, tried) {
        DroppedOrCandidate(StockAt(ranking), ranked, items, j);
      }
    } else if !outcome.replayed {
      var k := |tried| - 1;
      forall j: nat | j < k ensures ShortAt(candidates, items, tried, j) {
        assert ShortAt(candidates, items, tried[..k], j);
      }
      var i := CandidateIndex(StockAt(ranking), ranked, items, k);
      forall j | 0 <= j < i ensures WasShort(ranked[j], ranked, items, ranking, tried) {
        DroppedOrCandidate(StockAt(ranking), ranked[..i], items, j);
      }
    }
  }

  lemma MomentStays(from: History, at: History, mid: History, now: History, a: ActorId, actor: Actor)
    requires Moment(from, at, mid, a, actor) && Onward(from, mid, a) && Onward(mid, now, a)
    ensures Moment(from, at, now, a, actor) && Onward(from, now, a)
  {
    OnwardOn(from, mid, now, a);
    OnwardIsWithin(mid, now, a);
    ActedStays(at, mid, now, a);
  }

  lemma AnotherAttempt(from: History, tried: seq<History>, mid: History, at: History, now: History, a: ActorId,
                       o: OrderId,
                       items: seq<Item>, candidates: seq<WarehouseId>)
    requires AttemptedAt(from, tried, mid, a, o, items, candidates) && |tried| < |candidates|
    requires Within(if tried == [] then from else tried[|tried| - 1], mid) && Onward(mid, now, a)
    requires Moment(mid, at, now, a, Actor(o, Trying(items, candidates[|tried|..])))
    ensures AttemptedAt(from, tried + [at], now, a, o, items, candidates) && Within(at, now)
  {
    var n, longer := |tried|, tried + [at];
    AttemptsStay(from, tried, mid, now, a, o, items, candidates);
    WithinOn(if n == 0 then from else tried[n - 1], mid, at);
    ActedIsWithin(at, now, a);
    forall j | 0 <= j < |longer| ensures AttemptAt(from, longer, now, a, o, items, candidates, j) {
      if j < n {
        assert AttemptAt(from, tried, now, a, o, items, candidates, j);
      }
    }
  }

  lemma AttemptsStay(from: History, tried: seq<History>, mid: History, now: History, a: ActorId, o: OrderId,
                     items: seq<Item>, candidates: seq<WarehouseId>)
    requires AttemptedAt(from, tried, mid, a, o, items, candidates) && Onward(mid, now, a)
    ensures AttemptedAt(from, tried, now, a, o, items, candidates)
  {
    OnwardIsWithin(mid, now, a);
    forall j | 0 <= j < |tried| ensures AttemptAt(from, tried, now, a, o, items, candidates, j) {
      assert AttemptAt(from, tried, mid, a, o, items, candidates, j);
      ActedStays(tried[j], mid, now, a);
    }
  }

  lemma AttemptsAfter(from: History, mid: History, tried: seq<History>, now: History, a: ActorId, o: OrderId,
                      items: seq<Item>, candidates: seq<WarehouseId>)
    requires AttemptedAt(mid, tried, now, a, o, items, candidates) && Within(from, mid)
    ensures AttemptedAt(from, tried, now, a, o, items, candidates)
  {
    forall j | 0 <= j < |tried| ensures AttemptAt(from, tried, now, a, o, items, candidates, j) {
      assert AttemptAt(mid, tried, now, a, o, items, candidates, j);
      if j == 0 {
        WithinOn(from, mid, tried[0]);
      }
    }
  }

  // ---------------------------------------------------------------- every delivery, in every run

  /** A delivery starts here. */
  predicate StartsHere(from: History, a: ActorId) {
    a in from.state.actors && from.state.actors[a].pc == Reading
  }

  /** What a delivery that is still trying has behind it: its ranking, and attempts that were all short. */
  ghost predicate Pursuit(from: History, ranking: History, tried: seq<History>, now: History, a: ActorId, o: OrderId,
                          items: seq<Item>, ranked: seq<WarehouseId>, left: seq<WarehouseId>)
  {
    var candidates := Candidates(StockAt(ranking), ranked, items);
    && Moment(from, ranking, now, a, Actor(o, Ranking(items)))
    && AttemptedAt(ranking, tried, now, a, o, items, candidates) && AllShort(candidates, items, tried)
    && left == candidates[|tried|..]
    && Within(if tried == [] then ranking else tried[|tried| - 1], now)
  }

  lemma PursuitStays(from: History, ranking: History, tried: seq<History>, mid: History, now: History, a: ActorId,
                     o: OrderId, items: seq<Item>, ranked: seq<WarehouseId>, left: seq<WarehouseId>)
    requires Pursuit(from, ranking, tried, mid, a, o, items, ranked, left) && Onward(mid, now, a)
    ensures Pursuit(from, ranking, tried, now, a, o, items, ranked, left)
  {
    OnwardIsWithin(mid, now, a);
    ActedStays(ranking, mid, now, a);
    AttemptsStay(ranking, tried, mid, now, a, o, items, Candidates(StockAt(ranking), ranked, items));
    WithinOn(if tried == [] then ranking else tried[|tried| - 1], mid, now);
  }

  /** How a delivery gets to try these candidates: others moved, it ranked the warehouses, or it found one short. */
  lemma IntoTrying(w: World, s: Step, a: ActorId, o: OrderId, items: seq<Item>, left: seq<WarehouseId>)
    requires Inv(w) && Enabled(w, s) && Proper(w, s, a)
    requires a in Apply(w, s).actors && Apply(w, s).actors[a] == Actor(o, Trying(items, left))
    ensures o in w.orders && w.actors[a].order == o
    ensures NotBy(s, a) ==> w.actors[a] == Actor(o, Trying(items, left))
    ensures !NotBy(s, a) ==>
              && s.Act?
              && var pc := w.actors[a].pc;
                 || (pc == Ranking(items) && left == Candidates(w.inventory.stock, w.orders[o].nearest, items))
                 || (pc.Trying? && pc.items == items && pc.candidates != [] && left == pc.candidates[1..]
                     && DebitAll(w.inventory.stock, pc.candidates[0], items) == None)
  {
    Known(w, a);
    if NotBy(s, a) {
      NotByKeepsActor(w, s, a);
    } else if s.Act? {
      OwnTrying(w, a, s.choice, o, items, left);
    }
  }

  /** Transitions, releases and charges lead elsewhere. */
  lemma NoneLeadsToTrying(w: World, a: ActorId, c: Choice)
    requires a in w.actors && !IsLook(w.actors[a].pc) && !w.actors[a].pc.Trying?
    ensures a in ActStep(w, a, c).actors ==> !ActStep(w, a, c).actors[a].pc.Trying?
  {
    var pc := w.actors[a].pc;
    if IsCas(pc) {
    } else if IsRelease(pc) {
    } else {
    }
  }

  lemma LookLeadsToTrying(w: World, a: ActorId, c: Choice)
    requires a in w.actors && IsLook(w.actors[a].pc) && ActorOk(w, w.actors[a])
    requires a in LookStep(w, a, c).actors && LookStep(w, a, c).actors[a].pc.Trying?
    ensures var Actor(o, pc), next := w.actors[a], LookStep(w, a, c).actors[a];
            && o in w.orders && pc.Ranking?
            && next == Actor(o, Trying(pc.items, Candidates(c.seen, w.orders[o].nearest, pc.items)))
  {
  }

  lemma TryLeadsToTrying(w: World, a: ActorId)
    requires a in w.actors && w.actors[a].pc.Trying?
    requires a in TryStep(w, a).actors && TryStep(w, a).actors[a].pc.Trying?
    ensures var Actor(o, pc) := w.actors[a];
            && pc.candidates != [] && TryStep(w, a).actors[a] == Actor(o, Trying(pc.items, pc.candidates[1..]))
            && DebitAll(w.inventory.stock, pc.candidates[0], pc.items) == None
  {
  }

  lemma OwnTrying(w: World, a: ActorId, c: Choice, o: OrderId, items: seq<Item>, left: seq<WarehouseId>)
    requires a in w.actors && ActorOk(w, w.actors[a])
    requires a in ActStep(w, a, c).actors && ActStep(w, a, c).actors[a] == Actor(o, Trying(items, left))
    ensures o in w.orders && w.actors[a].order == o
    ensures var pc := w.actors[a].pc;
            || (pc == Ranking(items) && left == Candidates(c.seen, w.orders[o].nearest, items))
            || (pc.Trying? && pc.items == items && pc.candidates != [] && left == pc.candidates[1..]
                && DebitAll(w.inventory.stock, pc.candidates[0], items) == None)
  {
    var pc := w.actors[a].pc;
    if pc.Trying? {
      TryLeadsToTrying(w, a);
    } else if IsLook(pc) {
      LookLeadsToTrying(w, a, c);
    } else {
      NoneLeadsToTrying(w, a, c);
    }
  }

  /** A delivery that is trying candidates has ranked the warehouses of its order and found the nearer ones short. */
  lemma {:induction false} FindPursuit(from: History, h: History, a: ActorId, o: OrderId, items: seq<Item>,
                                       left: seq<WarehouseId>)
    returns (ranking: History, tried: seq<History>)
    requires IsRun(h) && Onward(from, h, a) && StartsHere(from, a)
    requires a in h.state.actors && h.state.actors[a] == Actor(o, Trying(items, left))
    ensures o in h.state.orders
    ensures Pursuit(from, ranking, tried, h, a, o, items, h.state.orders[o].nearest, left)
    decreases h
  {
    BeforeIsRun(h);
    var mid := h.before;
    HistoryKeepsInv(mid);
    IntoTrying(mid.state, h.step, a, o, items, left);
    StepKeepsInv(mid.state, h.step);
    assert Evolves(ViewOf(mid.state, o), ViewOf(h.state, o));
    var ranked := mid.state.orders[o].nearest;
    if NotBy(h.step, a) {
      ranking, tried := FindPursuit(from, mid, a, o, items, left);
      PursuitStays(from, ranking, tried, mid, h, a, o, items, ranked, left);
    } else if mid.state.actors[a].pc.Ranking? {
      ranking, tried := mid, [];
      OnwardIsWithin(from, mid, a);
    } else {
      var before := mid.state.actors[a].pc.candidates;
      ranking, tried := FindPursuit(from, mid, a, o, items, before);
      PursuedOnce(from, ranking, tried, mid, h, a, o, items, ranked, before);
      tried := tried + [mid];
    }
  }

  /** One more attempt, at the present moment, that found its candidate short. */
  lemma PursuedOnce(from: History, ranking: History, tried: seq<History>, mid: History, now: History, a: ActorId,
                    o: OrderId, items: seq<Item>, ranked: seq<WarehouseId>, left: seq<WarehouseId>)
    requires Pursuit(from, ranking, tried, mid, a, o, items, ranked, left) && left != []
    requires now.Then? && now.before == mid && JustActed(now, a) && Onward(mid, now, a)
    requires mid.state.actors[a] == Actor(o, Trying(items, left))
    requires DebitAll(StockAt(mid), left[0], items) == None
    ensures Pursuit(from, ranking, tried + [mid], now, a, o, items, ranked, left[1..])
  {
    var candidates := Candidates(StockAt(ranking), ranked, items);
    OnwardIsWithin(mid, now, a);
    ActedStays(ranking, mid, now, a);
    AnotherAttempt(ranking, tried, mid, mid, now, a, o, items, candidates);
    ShortAttempt(candidates, items, tried, mid);
    assert left[1..] == candidates[|tried + [mid]|..];
  }

  /** The delivery ranked the warehouses of its order, and each was short then or at its own attempt. */
  ghost predicate AllWereShort(from: History, ranking: History, tried: seq<History>, now: History, a: ActorId,
                               o: OrderId)
  {
    && o in now.state.orders
    && var items, nearest := now.state.orders[o].items, now.state.orders[o].nearest;
    && Moment(from, ranking, now, a, Actor(o, Ranking(items)))
    && AttemptedAt(ranking, tried, now, a, o, items, Candidates(StockAt(ranking), nearest, items))
    && forall j :: 0 <= j < |nearest| ==> WasShort(nearest[j], nearest, items, ranking, tried)
  }

  /** The delivery ranked the warehouses of its order, and chose the nearest one that was not short in time. */
  ghost predicate ChoseNearest(from: History, ranking: History, tried: seq<History>, now: History, a: ActorId,
                               o: OrderId, warehouse: WarehouseId)
  {
    && o in now.state.orders
    && var items, nearest := now.state.orders[o].items, now.state.orders[o].nearest;
    && Moment(from, ranking, now, a, Actor(o, Ranking(items)))
    && AttemptedAt(ranking, tried, now, a, o, items, Candidates(StockAt(ranking), nearest, items))
    && NearestInTime(warehouse, nearest, items, ranking, tried)
  }

  /** The delivery looked at this moment and found the order reserved at this warehouse. */
  ghost predicate FoundReserved(from: History, at: History, now: History, a: ActorId, o: OrderId,
                                warehouse: WarehouseId)
  {
    && Within(from, at) && ActedAt(at, now, a) && a in at.state.actors
    && (at.state.actors[a].pc.PriorLookup? || at.state.actors[a].pc == WinnerLookup)
    && o in at.state.inventory.reserves && at.state.inventory.reserves[o].warehouse == warehouse
  }

  /** How a delivery gets to give up, or to record a reservation: others moved, or its last operation decided it. */
  lemma IntoVerdict(w: World, s: Step, a: ActorId, o: OrderId, pc: Pc)
    requires Inv(w) && Enabled(w, s) && Proper(w, s, a) && (pc == OutOfStockCas || pc.ReserveCas?)
    requires a in Apply(w, s).actors && Apply(w, s).actors[a] == Actor(o, pc)
    ensures o in w.orders && w.actors[a].order == o
    ensures NotBy(s, a) ==> w.actors[a] == Actor(o, pc)
    ensures !NotBy(s, a) ==> s.Act? && Decides(w, o, w.actors[a].pc, pc)
  {
    Known(w, a);
    if NotBy(s, a) {
      NotByKeepsActor(w, s, a);
    } else if s.Act? {
      OwnVerdict(w, a, s.choice, o, pc);
    }
  }

  predicate Decides(w: World, o: OrderId, before: Pc, after: Pc) {
    if after == OutOfStockCas then before.Trying? && before.candidates == []
    else
      || ((before.PriorLookup? || before == WinnerLookup)
          && o in w.inventory.reserves && after == ReserveCas(w.inventory.reserves[o].warehouse))
      || (before.Trying? && before.candidates != [] && after == ReserveCas(before.candidates[0])
          && DebitAll(w.inventory.stock, before.candidates[0], before.items).Some?)
  }

  lemma NoneDecides(w: World, a: ActorId, c: Choice)
    requires a in w.actors && !IsLook(w.actors[a].pc) && !w.actors[a].pc.Trying?
    ensures a in ActStep(w, a, c).actors ==>
              ActStep(w, a, c).actors[a].pc != OutOfStockCas && !ActStep(w, a, c).actors[a].pc.ReserveCas?
  {
    var pc := w.actors[a].pc;
    if IsCas(pc) {
    } else if IsRelease(pc) {
    } else {
    }
  }

  lemma LookDecides(w: World, a: ActorId, c: Choice)
    requires a in w.actors && IsLook(w.actors[a].pc) && a in LookStep(w, a, c).actors
    ensures var Actor(o, pc), next := w.actors[a], LookStep(w, a, c).actors[a];
            && next.order == o && next.pc != OutOfStockCas && (next.pc.ReserveCas? ==> Decides(w, o, pc, next.pc))
  {
  }

  lemma TryDecides(w: World, a: ActorId)
    requires a in w.actors && w.actors[a].pc.Trying? && a in TryStep(w, a).actors
    ensures var Actor(o, pc), next := w.actors[a], TryStep(w, a).actors[a];
            && next.order == o
            && (next.pc == OutOfStockCas || next.pc.ReserveCas? ==> Decides(w, o, pc, next.pc))
  {
  }

  lemma OwnVerdict(w: World, a: ActorId, c: Choice, o: OrderId, pc: Pc)
    requires Inv(w) && a in w.actors && (pc == OutOfStockCas || pc.ReserveCas?)
    requires a in ActStep(w, a, c).actors && ActStep(w, a, c).actors[a] == Actor(o, pc)
    ensures o in w.orders && w.actors[a].order == o && Decides(w, o, w.actors[a].pc, pc)
  {
    Known(w, a);
    if w.actors[a].pc.Trying? {
      TryDecides(w, a);
    } else if IsLook(w.actors[a].pc) {
      LookDecides(w, a, c);
    } else {
      NoneDecides(w, a, c);
    }
  }

  lemma AllWereShortStays(from: History, ranking: History, tried: seq<History>, mid: History, now: History,
                          a: ActorId, o: OrderId)
    requires AllWereShort(from, ranking, tried, mid, a, o) && Onward(mid, now, a)
    requires o in now.state.orders && Evolves(ViewOf(mid.state, o), ViewOf(now.state, o))
    ensures AllWereShort(from, ranking, tried, now, a, o)
  {
    var items, nearest := now.state.orders[o].items, now.state.orders[o].nearest;
    OnwardIsWithin(mid, now, a);
    ActedStays(ranking, mid, now, a);
    AttemptsStay(ranking, tried, mid, now, a, o, items, Candidates(StockAt(ranking), nearest, items));
  }

  /** No candidate is left. */
  lemma NothingLeftToTry(from: History, h: History, a: ActorId, o: OrderId)
    returns (ranking: History, tried: seq<History>)
    requires IsRun(h) && Onward(from, h, a) && StartsHere(from, a) && o in h.state.orders
    requires a in h.state.actors && h.state.actors[a].order == o
    requires h.state.actors[a].pc.Trying? && h.state.actors[a].pc.candidates == []
    ensures AllWereShort(from, ranking, tried, h, a, o)
  {
    var items, nearest := h.state.orders[o].items, h.state.orders[o].nearest;
    HistoryKeepsInv(h);
    Known(h.state, a);
    ranking, tried := FindPursuit(from, h, a, o, items, []);
    NearerWereShort(nearest, items, NoWarehouse, ranking, tried);
  }

  /**
   * In any run: a delivery about to fail its order for lack of stock has ranked
   * all its warehouses, and each of them was short then or at its own attempt.
   */
  lemma {:induction false} GivesUpForLackOfStock(from: History, h: History, a: ActorId, o: OrderId)
    returns (ranking: History, tried: seq<History>)
    requires IsRun(h) && Onward(from, h, a) && StartsHere(from, a)
    requires a in h.state.actors && h.state.actors[a] == Actor(o, OutOfStockCas)
    ensures AllWereShort(from, ranking, tried, h, a, o)
    decreases h
  {
    BeforeIsRun(h);
    var mid := h.before;
    HistoryKeepsInv(mid);
    IntoVerdict(mid.state, h.step, a, o, OutOfStockCas);
    StepKeepsInv(mid.state, h.step);
    assert Evolves(ViewOf(mid.state, o), ViewOf(h.state, o));
    if NotBy(h.step, a) {
      ranking, tried := GivesUpForLackOfStock(from, mid, a, o);
    } else {
      ranking, tried := NothingLeftToTry(from, mid, a, o);
    }
    AllWereShortStays(from, ranking, tried, mid, h, a, o);
  }

  lemma ChoseNearestStays(from: History, ranking: History, tried: seq<History>, mid: History, now: History,
                          a: ActorId, o: OrderId, warehouse: WarehouseId)
    requires ChoseNearest(from, ranking, tried, mid, a, o, warehouse) && Onward(mid, now, a)
    requires o in now.state.orders && Evolves(ViewOf(mid.state, o), ViewOf(now.state, o))
    ensures ChoseNearest(from, ranking, tried, now, a, o, warehouse)
  {
    var items, nearest := now.state.orders[o].items, now.state.orders[o].nearest;
    OnwardIsWithin(mid, now, a);
    ActedStays(ranking, mid, now, a);
    AttemptsStay(ranking, tried, mid, now, a, o, items, Candidates(StockAt(ranking), nearest, items));
  }

  /** The attempt that has just committed was at the nearest warehouse that was not short in time. */
  lemma CommittedNearest(from: History, ranking: History, tried: seq<History>, mid: History, now: History, a: ActorId,
                         o: OrderId, left: seq<WarehouseId>)
    requires o in now.state.orders
    requires var items, nearest := now.state.orders[o].items, now.state.orders[o].nearest;
             && Pursuit(from, ranking, tried, mid, a, o, items, nearest, left) && left != []
             && now.Then? && now.before == mid && JustActed(now, a) && Onward(mid, now, a)
             && mid.state.actors[a] == Actor(o, Trying(items, left))
             && DebitAll(StockAt(mid), left[0], items).Some?
    ensures ChoseNearest(from, ranking, tried + [mid], now, a, o, left[0])
  {
    var items, nearest := now.state.orders[o].items, now.state.orders[o].nearest;
    var candidates := Candidates(StockAt(ranking), nearest, items);
    OnwardIsWithin(mid, now, a);
    ActedStays(ranking, mid, now, a);
    AnotherAttempt(ranking, tried, mid, mid, now, a, o, items, candidates);
    LastAttempt(ReservedAt(left[0], false), candidates, items, tried, mid);
    NearerWereShort(nearest, items, ReservedAt(left[0], false), ranking, tried + [mid]);
  }

  /**
   * In any run: a delivery about to record a warehouse found the order reserved
   * there, or tried the warehouses of the order and took the nearest that was not
   * short in time.
   */
  lemma {:induction false} RecordsTheNearest(from: History, h: History, a: ActorId, o: OrderId, warehouse: WarehouseId)
    returns (ranking: History, tried: seq<History>, replayed: bool)
    requires IsRun(h) && Onward(from, h, a) && StartsHere(from, a)
    requires a in h.state.actors && h.state.actors[a] == Actor(o, ReserveCas(warehouse))
    ensures if replayed then FoundReserved(from, ranking, h, a, o, warehouse)
            else ChoseNearest(from, ranking, tried, h, a, o, warehouse)
    decreases h
  {
    BeforeIsRun(h);
    var mid := h.before;
    HistoryKeepsInv(mid);
    IntoVerdict(mid.state, h.step, a, o, ReserveCas(warehouse));
    StepKeepsInv(mid.state, h.step);
    assert Evolves(ViewOf(mid.state, o), ViewOf(h.state, o));
    if NotBy(h.step, a) {
      ranking, tried, replayed := RecordsTheNearest(from, mid, a, o, warehouse);
      if !replayed {
        ChoseNearestStays(from, ranking, tried, mid, h, a, o, warehouse);
      }
    } else if mid.state.actors[a].pc.Trying? {
      var left := mid.state.actors[a].pc.candidates;
      Known(mid.state, a);
      ranking, tried := FindPursuit(from, mid, a, o, mid.state.orders[o].items, left);
      CommittedNearest(from, ranking, tried, mid, h, a, o, left);
      tried, replayed := tried + [mid], false;
    } else {
      ranking, tried, replayed := mid, [], true;
      OnwardIsWithin(from, mid, a);
    }
  }

  // ---------------------------------------------------------------- one delivery as a whole

  ghost predicate GaveUpRightly(from: History, at: History, a: ActorId, o: OrderId) {
    exists ranking, tried :: AllWereShort(from, ranking, tried, at, a, o)
  }

  ghost predicate ReservedRightly(from: History, at: History, a: ActorId, o: OrderId, warehouse: WarehouseId) {
    || (exists found :: FoundReserved(from, found, at, a, o, warehouse))
    || (exists ranking, tried :: ChoseNearest(from, ranking, tried, at, a, o, warehouse))
  }

  /** The moment of one of the delivery's own operations. */
  ghost predicate OwnMoment(from: History, at: History, now: History, a: ActorId) {
    Onward(from, at, a) && ActedAt(at, now, a) && a in at.state.actors
  }

  /**
   * Whenever the delivery moved its order out of PENDING, or tried to: to FAILED
   * only because every warehouse of the order was short in time, and with a
   * warehouse only if it is the order's own, or the nearest that was not short.
   */
  ghost predicate ChoseRightly(from: History, now: History, a: ActorId) {
    forall at {:trigger OwnMoment(from, at, now, a)} :: OwnMoment(from, at, now, a) ==>
      var Actor(o, pc) := at.state.actors[a];
      && (pc == OutOfStockCas ==> GaveUpRightly(from, at, a, o))
      && (pc.ReserveCas? ==> ReservedRightly(from, at, a, o, pc.warehouse))
  }

  lemma EveryDeliveryChoosesRightly(from: History, h: History, a: ActorId)
    requires IsRun(h) && Onward(from, h, a) && StartsHere(from, a)
    ensures ChoseRightly(from, h, a)
  {
    forall at | OwnMoment(from, at, h, a)
      ensures var Actor(o, pc) := at.state.actors[a];
              && (pc == OutOfStockCas ==> GaveUpRightly(from, at, a, o))
              && (pc.ReserveCas? ==> ReservedRightly(from, at, a, o, pc.warehouse))
    {
      ActedIsWithin(at, h, a);
      EarlierIsRun(at, h);
      var Actor(o, pc) := at.state.actors[a];
      if pc == OutOfStockCas {
        var ranking, tried := GivesUpForLackOfStock(from, at, a, o);
      } else if pc.ReserveCas? {
        var ranking, tried, replayed := RecordsTheNearest(from, at, a, o, pc.warehouse);
      }
    }
  }
}
