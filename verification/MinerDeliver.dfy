/** Every event that stays current reaches the handler: how many steps of the event thread that takes, in any
    run (src/qrandomx/qrxminer.cpp:274-315). */
module MinerDeliver {
  import opened Basics
  import opened MinerSteps
  import opened MinerTheorems
  import opened MinerEvents

  /** The steps of the event thread, the return of the handler included, until the handler is entered with the
      event at place p of the queue: each event before it costs nine, even if it is put back. */
  function StepsUntil(phase: Phase, p: nat): nat {
    9 * p +
    match phase
    case Listening => 5
    case Popping => 4
    case Popped(_) => 12
    case Entering(_) => 11
    case Rechecking(_) => 10
    case Handling(_, _) => 9
    case Leaving(_, _) => 8
    case Requeuing(_) => 7
    case Pushing(_) => 6
  }

  predicate QueuedNear(s: State, e: Event, p: nat, n: nat) {
    p < |s.queue| && s.queue[p] == e && StepsUntil(s.phase, p) <= n
  }

  /** The event is at most n steps of the event thread away from the handler. */
  ghost predicate Near(s: State, e: Event, n: nat) {
    || (exists p :: QueuedNear(s, e, p, n))
    || (s.phase.Popped? && s.phase.event == e && 3 <= n)
    || (s.phase.Entering? && s.phase.event == e && 2 <= n)
    || (s.phase.Rechecking? && s.phase.event == e && 1 <= n)
  }

  predicate EventTurn(a: Action) {
    a.Listen? || a.Return?
  }

  /** The steps of the event thread in a schedule. */
  function EventTurns(h: HashFn, s: State, more: seq<Action>): nat {
    if more == [] then 0
    else
      var k := |more| - 1;
      EventTurns(h, s, more[..k])
        + (if EventTurn(more[k]) && Enabled(After(h, s, more[..k]), more[k]) then 1 else 0)
  }

  /** After that many actions of the schedule the handler has just been entered with the event. */
  predicate HandedAt(h: HashFn, s: State, more: seq<Action>, e: Event, i: nat) {
    i <= |more| && After(h, s, more[..i]).phase == Handling(e, 0)
  }

  ghost predicate NeverHanded(h: HashFn, s: State, more: seq<Action>, e: Event) {
    forall i: nat :: !HandedAt(h, s, more, e, i)
  }

  lemma ListenGetsNearer(s: State, e: Event, n: nat)
    requires EventThreadReady(s) && Near(s, e, n) && e.sequence == s.sequence
    ensures n > 0 && (Near(EventStep(s), e, n - 1) || EventStep(s).phase == Handling(e, 0))
  {
    if p :| QueuedNear(s, e, p, n) {
      QueuedGetsNearer(s, e, p, n);
    }
  }

  lemma QueuedGetsNearer(s: State, e: Event, p: nat, n: nat)
    requires EventThreadReady(s) && QueuedNear(s, e, p, n)
    ensures n > 0 && Near(EventStep(s), e, n - 1)
  {
    var s' := EventStep(s);
    if s.phase.Popping? {
      assert p == 0 || QueuedNear(s', e, p - 1, n - 1);
    } else {
      assert QueuedNear(s', e, p, n - 1);
    }
  }

  lemma ReturnGetsNearer(h: HashFn, s: State, e: Event, n: nat, handled: bool)
    requires Enabled(s, Return(handled)) && Near(s, e, n)
    ensures n > 0 && Near(Apply(h, s, Return(handled)), e, n - 1)
  {
    var p :| QueuedNear(s, e, p, n);
    assert QueuedNear(Apply(h, s, Return(handled)), e, p, n - 1);
  }

  /** Nobody else moves the event away from the handler. */
  lemma OthersKeepNear(h: HashFn, s: State, a: Action, e: Event, n: nat)
    requires Enabled(s, a) && !EventTurn(a) && Near(s, e, n)
    ensures Near(Apply(h, s, a), e, n)
  {
    var s' := Apply(h, s, a);
    QueueOnlyGrows(h, s, a);
    PhaseStays(h, s, a);
    if p :| QueuedNear(s, e, p, n) {
      assert QueuedNear(s', e, p, n);
    }
  }

  lemma NearStep(h: HashFn, s: State, a: Action, e: Event, n: nat)
    requires Enabled(s, a) && Near(s, e, n) && e.sequence == s.sequence
    ensures var turn := if EventTurn(a) then 1 else 0;
            turn <= n && ((turn < n && Near(Apply(h, s, a), e, n - turn)) || Apply(h, s, a).phase == Handling(e, 0))
  {
    match a {
      case Listen => ListenGetsNearer(s, e, n);
      case Return(handled) => ReturnGetsNearer(h, s, e, n, handled);
      case _ => OthersKeepNear(h, s, a, e, n);
    }
  }

  /** Of the n steps that the event was away from the handler, some have been taken. */
  ghost predicate Approached(s: State, e: Event, n: nat, turns: nat) {
    turns < n && Near(s, e, n - turns)
  }

  lemma ApproachStep(h: HashFn, s: State, a: Action, e: Event, n: nat, turns: nat)
    requires Enabled(s, a) && Approached(s, e, n, turns) && e.sequence == s.sequence
    ensures Approached(Apply(h, s, a), e, n, turns + if EventTurn(a) then 1 else 0)
         || Apply(h, s, a).phase == Handling(e, 0)
  {
    NearStep(h, s, a, e, n - turns);
  }

  /** Sequence numbers only go up. */
  lemma WasCurrent(h: HashFn, s: State, more: seq<Action>)
    requires Reachable(h, s) && more != [] && s.sequence == After(h, s, more).sequence
    ensures After(h, s, more[..|more| - 1]).sequence == s.sequence
  {
    var k := |more| - 1;
    var before := After(h, s, more[..k]);
    ReachableOn(h, s, more[..k]);
    if Enabled(before, more[k]) {
      OnlyTheHandlerAdvances(h, before, more[k]);
    }
  }

  lemma PrefixNeverHanded(h: HashFn, s: State, more: seq<Action>, e: Event)
    requires more != [] && NeverHanded(h, s, more, e)
    ensures NeverHanded(h, s, more[..|more| - 1], e) && After(h, s, more).phase != Handling(e, 0)
  {
    var k := |more| - 1;
    assert more[..|more|] == more && !HandedAt(h, s, more, e, |more|);
    forall i: nat ensures !HandedAt(h, s, more[..k], e, i) {
      if i <= k {
        assert more[..k][..i] == more[..i] && !HandedAt(h, s, more, e, i);
      }
    }
  }

  lemma {:induction false} Approaches(h: HashFn, s: State, more: seq<Action>, e: Event, n: nat)
    requires Reachable(h, s) && Approached(s, e, n, 0) && s.sequence == e.sequence == After(h, s, more).sequence
    requires NeverHanded(h, s, more, e)
    ensures Approached(After(h, s, more), e, n, EventTurns(h, s, more))
  {
    if more != [] {
      var k := |more| - 1;
      WasCurrent(h, s, more);
      PrefixNeverHanded(h, s, more, e);
      Approaches(h, s, more[..k], e, n);
      var before := After(h, s, more[..k]);
      if Enabled(before, more[k]) {
        ApproachStep(h, before, more[k], e, n, EventTurns(h, s, more[..k]));
      }
    }
  }

  /** Liveness, over every continuation of every run: an event in the queue whose number stays current is
      handed to the handler by the time the event thread has taken its number of steps, whatever the handler
      does with the events before it and whatever everybody else does. */
  lemma EventuallyDelivered(h: HashFn, s: State, more: seq<Action>, e: Event, p: nat)
    requires Reachable(h, s) && p < |s.queue| && s.queue[p] == e
    requires s.sequence == e.sequence == After(h, s, more).sequence
    requires EventTurns(h, s, more) >= StepsUntil(s.phase, p)
    ensures exists i: nat :: i <= |more| && After(h, s, more[..i]).phase == Handling(e, 0)
  {
    var n := StepsUntil(s.phase, p);
    assert QueuedNear(s, e, p, n);
    if NeverHanded(h, s, more, e) {
      Approaches(h, s, more, e, n);
    } else {
      var i: nat :| HandedAt(h, s, more, e, i);
    }
  }
}
