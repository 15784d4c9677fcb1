/**
 * What has happened so far, newest last. Earlier moments stay inside later
 * ones, so a contract can say that a call only added to the history, and can
 * point at the moment at which an operation took place.
 */
module Histories {
  import opened Wrappers
  import opened OrderStatuses
  import opened StockLedger
  import opened Charges
  import opened Orders
  import opened SagaProtocol
  import opened SagaInvariant

  datatype History = Start(state: World) | Then(before: History, step: Step, state: World)

  /** The last entry follows from the one before it. */
  ghost predicate Follows(h: History) {
    match h
    case Start(w) => Initial(w)
    case Then(before, s, w) => Enabled(before.state, s) && w == Apply(before.state, s)
  }

  /** `p` is this moment or an earlier one. */
  ghost predicate Within(p: History, h: History)
    decreases h
  {
    p == h || (h.Then? && Within(p, h.before))
  }

  ghost predicate IsRun(h: History) {
    forall p :: Within(p, h) ==> Follows(p)
  }

  // ---------------------------------------------------------------- histories and runs

  function First(h: History): World {
    if h.Start? then h.state else First(h.before)
  }

  function Steps(h: History): seq<Step> {
    if h.Start? then [] else Steps(h.before) + [h.step]
  }

  lemma {:induction false} WithinOn(p: History, q: History, h: History)
    requires Within(p, q) && Within(q, h)
    ensures Within(p, h)
    decreases h
  {
    if q != h {
      WithinOn(p, q, h.before);
    }
  }

  lemma EarlierIsRun(p: History, h: History)
    requires IsRun(h) && Within(p, h)
    ensures IsRun(p) && Follows(p)
  {
    forall q | Within(q, p) ensures Follows(q) {
      WithinOn(q, p, h);
    }
  }

  lemma BeforeIsRun(h: History)
    requires IsRun(h) && h.Then?
    ensures IsRun(h.before) && Enabled(h.before.state, h.step) && h.state == Apply(h.before.state, h.step)
  {
    assert Within(h.before, h) && Within(h, h);
    EarlierIsRun(h.before, h);
    assert Follows(h);
  }

  lemma ExtendRun(h: History, s: Step, w: World)
    requires IsRun(h) && Enabled(h.state, s) && w == Apply(h.state, s)
    ensures IsRun(Then(h, s, w))
  {
  }

  /** A recorded history is a run in the sense of the protocol, so every theorem about runs applies to it. */
  lemma {:induction false} HistoryIsARun(h: History)
    requires IsRun(h)
    ensures Initial(First(h)) && ValidRun(First(h), Steps(h)) && Run(First(h), Steps(h)) == h.state
  {
    if h.Start? {
      assert Within(h, h) && Follows(h);
    } else {
      BeforeIsRun(h);
      HistoryIsARun(h.before);
      RunOfOne(h.before.state, h.step);
      RunAppend(First(h), Steps(h.before), [h.step]);
    }
  }

  lemma HistoryKeepsInv(h: History)
    requires IsRun(h)
    ensures Inv(h.state)
  {
    HistoryIsARun(h);
    InitialInv(First(h));
    RunKeepsInv(First(h), Steps(h));
  }

  /** Whatever held of an order at an earlier moment has only evolved since: rows stay, statuses climb. */
  lemma {:induction false} EarlierEvolves(p: History, h: History)
    requires IsRun(h) && Within(p, h)
    ensures WorldEvolves(p.state, h.state)
    decreases h
  {
    HistoryKeepsInv(h);
    if p == h {
      SelfEvolves(h.state);
    } else {
      BeforeIsRun(h);
      HistoryKeepsInv(h.before);
      StepKeepsInv(h.before.state, h.step);
      EarlierEvolves(p, h.before);
      EvolvesTransitive(p.state, h.before.state, h.state);
    }
  }

  lemma SelfEvolves(w: World)
    ensures WorldEvolves(w, w)
  {
  }

  // ---------------------------------------------------------------- one actor's part in it

  /** The step is not taken by, and does not kill, this actor. */
  predicate NotBy(s: Step, a: ActorId) {
    (s.Crash? || s.GiveUp? || s.SweeperStops? || s.Act?) ==> s.actor != a
  }

  /** What follows when these steps are taken in turn, except those that are not possible or are up to this actor. */
  ghost function Played(h: History, steps: seq<Step>, me: Option<ActorId>): History {
    if steps == [] then h
    else
      var so, s := Played(h, steps[..|steps| - 1], me), steps[|steps| - 1];
      if Enabled(so.state, s) && (me.Some? ==> NotBy(s, me.value)) then Then(so, s, Apply(so.state, s)) else so
  }

  lemma PlaysNext(h: History, steps: seq<Step>, i: nat, me: Option<ActorId>)
    requires i < |steps|
    ensures var so, s := Played(h, steps[..i], me), steps[i];
            Played(h, steps[..i + 1], me)
              == if Enabled(so.state, s) && (me.Some? ==> NotBy(s, me.value)) then Then(so, s, Apply(so.state, s))
                 else so
  {
    assert steps[..i + 1][..i] == steps[..i];
  }

  lemma NotByKeepsActor(w: World, s: Step, a: ActorId)
    requires Inv(w) && Enabled(w, s) && NotBy(s, a) && a in w.actors
    ensures a in Apply(w, s).actors && Apply(w, s).actors[a] == w.actors[a]
  {
    if s.Act? {
      ActLeavesOthers(w, s.actor, s.choice);
    }
  }

  /**
   * The actor is alive before the step, the step does not begin its next life,
   * and a ranking it makes sees the stock of the moment.
   */
  predicate Proper(w: World, s: Step, a: ActorId) {
    && a in w.actors
    && !(s.GiveUp? && s.actor == a)
    && (s.Act? && s.actor == a ==>
          w.actors[a].pc != Redelivery && (w.actors[a].pc.Ranking? ==> s.choice.seen == w.inventory.stock))
  }

  /** From `p` to `h` time went by, within one life of the actor. */
  ghost predicate Onward(p: History, h: History, a: ActorId)
    decreases h
  {
    p == h || (h.Then? && Proper(h.before.state, h.step, a) && Onward(p, h.before, a))
  }

  lemma {:induction false} OnwardOn(p: History, q: History, h: History, a: ActorId)
    requires Onward(p, q, a) && Onward(q, h, a)
    ensures Onward(p, h, a)
    decreases h
  {
    if q != h {
      OnwardOn(p, q, h.before, a);
    }
  }

  lemma {:induction false} OnwardIsWithin(p: History, h: History, a: ActorId)
    requires Onward(p, h, a)
    ensures Within(p, h)
    decreases h
  {
    if p != h {
      OnwardIsWithin(p, h.before, a);
    }
  }

  /** The last thing that happened is an operation of the actor. */
  predicate JustActed(h: History, a: ActorId) {
    h.Then? && h.step.Act? && h.step.actor == a && a in h.before.state.actors
  }

  /** At the moment `at` the next thing to happen was an operation of the actor, and it is part of `h`. */
  ghost predicate ActedAt(at: History, h: History, a: ActorId)
    decreases h
  {
    h.Then? && ((h.before == at && JustActed(h, a)) || ActedAt(at, h.before, a))
  }

  lemma {:induction false} ActedStays(at: History, q: History, h: History, a: ActorId)
    requires ActedAt(at, q, a) && Within(q, h)
    ensures ActedAt(at, h, a)
    decreases h
  {
    if q != h {
      ActedStays(at, q, h.before, a);
    }
  }

  lemma {:induction false} ActedIsWithin(at: History, h: History, a: ActorId)
    requires ActedAt(at, h, a)
    ensures Within(at, h)
    decreases h
  {
    if h.before != at || !JustActed(h, a) {
      ActedIsWithin(at, h.before, a);
    }
  }
}
