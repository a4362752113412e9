/** What becomes of an event: it stays in the queue or in the event thread's hand until the handler
    accepts it or its sequence number is outdated, and after that it never comes back
    (src/qrandomx/qrxminer.cpp:244-249 and 274-315). */
module MinerEvents {
  import opened Basics
  import opened NonceSearch
  import opened MinerSteps
  import opened MinerLocks
  import opened MinerSafety
  import opened MinerTheorems

  /** The event thread has the event in hand and has not finished with it. */
  predicate Held(phase: Phase, e: Event) {
    InHand(phase, e) && !(phase.Leaving? && phase.handled)
  }

  predicate Kept(s: State, e: Event) {
    e in s.queue || Held(s.phase, e)
  }

  predicate Gone(s: State, e: Event) {
    e !in s.queue && !InHand(s.phase, e)
  }

  // ---------------------------------------------------------------------------------------------
  // No event is lost
  // ---------------------------------------------------------------------------------------------

  /** The queue only grows at the back, except when the event thread pops its head. */
  lemma QueueOnlyGrows(h: HashFn, s: State, a: Action)
    requires Enabled(s, a) && !a.Listen?
    ensures s.queue <= Apply(h, s, a).queue
  {
    match a {
      case Step(b) =>
        if !s.actors[b].Advance? {
          ActorStepKeepsRest(s, b);
        }
      case Work(i) =>
        if Searching(s.workers[i].pc) {
          SearchKeepsQueues(h, s, i);
        } else if !TimingOut(s.workers[i].pc) && !s.workers[i].pc.PushSolution? {
          SolutionKeepsQueues(s, i);
        }
      case _ =>
    }
  }

  lemma PhaseStays(h: HashFn, s: State, a: Action)
    requires Enabled(s, a) && !a.Listen? && !a.Return?
    ensures var phase := Apply(h, s, a).phase;
            phase == s.phase || (s.phase.Handling? && phase == s.phase.(advances := phase.advances))
  {
    match a {
      case Step(b) =>
        if !s.actors[b].Advance? {
          ActorStepKeepsRest(s, b);
        }
      case Work(i) => WorkerStepIsLocal(h, s, i);
      case _ =>
    }
  }

  /** One step of the event thread drops an event only if it is outdated. */
  lemma ListenKeepsEvent(s: State, e: Event)
    requires EventThreadReady(s) && Kept(s, e)
    ensures Kept(EventStep(s), e) || e.sequence != s.sequence
  {
    if s.phase.Popping? && e in s.queue {
      assert e == s.queue[0] || e in s.queue[1..];
    }
  }

  lemma KeptStep(h: HashFn, s: State, a: Action, e: Event)
    requires Enabled(s, a) && Kept(s, e)
    ensures Kept(Apply(h, s, a), e) || e.sequence != s.sequence || (a == Return(true) && s.phase.event == e)
  {
    if a.Listen? {
      ListenKeepsEvent(s, e);
    } else {
      QueueOnlyGrows(h, s, a);
      if !a.Return? {
        PhaseStays(h, s, a);
      }
    }
  }

  /** Whether the handler accepts the event in the course of a schedule. */
  predicate AcceptedIn(h: HashFn, s: State, more: seq<Action>, e: Event) {
    more != []
    && var k := |more| - 1;
    (AcceptedIn(h, s, more[..k], e)
     || (more[k] == Return(true) && Enabled(After(h, s, more[..k]), more[k])
         && After(h, s, more[..k]).phase.event == e))
  }

  /** A current event is never lost: in every continuation it is still queued or in hand, unless the
      handler accepted it or a newer sequence number has been taken. */
  lemma {:induction false} NoEventLost(h: HashFn, s: State, more: seq<Action>, e: Event)
    requires Reachable(h, s) && Kept(s, e) && e.sequence == s.sequence
    ensures Kept(After(h, s, more), e) || After(h, s, more).sequence > e.sequence || AcceptedIn(h, s, more, e)
  {
    if more != [] {
      var k := |more| - 1;
      NoEventLost(h, s, more[..k], e);
      ReachableOn(h, s, more[..k]);
      var before := After(h, s, more[..k]);
      if Enabled(before, more[k]) {
        OnlyTheHandlerAdvances(h, before, more[k]);
        if Kept(before, e) && before.sequence == e.sequence {
          KeptStep(h, before, more[k], e);
        }
      }
    }
  }

  // ---------------------------------------------------------------------------------------------
  // No event comes twice
  // ---------------------------------------------------------------------------------------------

  /** The queue and the event thread's hand hold every event at most once. */
  ghost predicate NoCopies(s: State) {
    && (forall j, k :: 0 <= j < k < |s.queue| ==> s.queue[j] != s.queue[k])
    && (forall e :: InHand(s.phase, e) ==> e !in s.queue)
  }

  /** What a step other than the event thread's does to the queue. */
  lemma OthersPushNothing(h: HashFn, s: State, a: Action)
    requires Enabled(s, a) && !a.Listen? && !a.Work?
    ensures Apply(h, s, a).queue == s.queue && Apply(h, s, a).created == s.created
  {
    if Aside(a) {
      AsideStep(h, s, a);
    } else if a.Step? && !s.actors[a.a].Advance? {
      ActorStepKeepsRest(s, a.a);
    }
  }

  lemma PushIsNew(h: HashFn, s: State, a: Action) returns (e: Event)
    requires Inv(h, s) && Enabled(s, a) && !a.Listen?
    ensures var s' := Apply(h, s, a);
            || (s'.queue == s.queue && s'.created == s.created)
            || (s'.queue == s.queue + [e] && s'.created == s.created + [e] && e !in s.created)
  {
    if a.Work? {
      e := WorkPushesNew(h, s, a.i);
    } else {
      e := Event(Timeout, 0, 0);
      OthersPushNothing(h, s, a);
    }
  }

  lemma WorkPushesNew(h: HashFn, s: State, i: nat) returns (e: Event)
    requires Inv(h, s) && Enabled(s, Work(i))
    ensures var s' := WorkerStep(h, s, i);
            || (s'.queue == s.queue && s'.created == s.created)
            || (s'.queue == s.queue + [e] && s'.created == s.created + [e] && e !in s.created)
  {
    assert WorkerLocks(s, i) && WorkerOk(h, s, i) && Stored(s, i);
    var w := s.workers[i];
    e := Event(if w.pc.PushTimeout? then Timeout else Solution, w.sequence, if w.pc.PushTimeout? then 0 else w.nonce);
    if WorkerPushing(w.pc) {
      NoneLikeIt(h, s, i, e);
      assert e in s.created ==> SameSlot(e, e);
    } else if Searching(w.pc) {
      SearchKeepsQueues(h, s, i);
    } else if !TimingOut(w.pc) {
      SolutionKeepsQueues(s, i);
    }
  }

  lemma ListenKeepsNoCopies(s: State)
    requires NoCopies(s) && EventThreadReady(s)
    ensures NoCopies(EventStep(s))
  {
    if s.phase.Popping? {
      assert forall k :: 0 <= k < |s.queue| - 1 ==> s.queue[1..][k] == s.queue[k + 1];
    } else if s.phase.Pushing? {
      assert InHand(s.phase, s.phase.event);
    }
  }

  lemma StepKeepsNoCopies(h: HashFn, s: State, a: Action)
    requires Inv(h, s) && NoCopies(s) && Enabled(s, a)
    ensures NoCopies(Apply(h, s, a))
  {
    if a.Listen? {
      ListenKeepsNoCopies(s);
    } else {
      var e := PushIsNew(h, s, a);
      if !a.Return? {
        PhaseStays(h, s, a);
      }
      assert e !in s.created ==> e !in s.queue;
    }
  }

  lemma {:induction false} RunsHaveNoCopies(h: HashFn, s: State, schedule: seq<Action>)
    requires Inv(h, s) && NoCopies(s)
    ensures NoCopies(After(h, s, schedule))
  {
    if schedule != [] {
      var k := |schedule| - 1;
      RunsHaveNoCopies(h, s, schedule[..k]);
      AlwaysOk(h, s, schedule[..k]);
      var before := After(h, s, schedule[..k]);
      if Enabled(before, schedule[k]) {
        StepKeepsNoCopies(h, before, schedule[k]);
      }
    }
  }

  lemma ReachableHasNoCopies(h: HashFn, s: State)
    requires Reachable(h, s)
    ensures NoCopies(s)
  {
    var callers: nat, request: Request, schedule: seq<Action> :|
      WellFormed(request.job) && s == After(h, Initial(callers, request), schedule);
    InitialOk(h, callers, request);
    RunsHaveNoCopies(h, Initial(callers, request), schedule);
  }

  lemma ListenKeepsGone(s: State, e: Event)
    requires EventThreadReady(s) && Gone(s, e)
    ensures Gone(EventStep(s), e)
  {
  }

  lemma GoneStep(h: HashFn, s: State, a: Action, e: Event)
    requires Inv(h, s) && Enabled(s, a) && e in s.created && Gone(s, e)
    ensures e in Apply(h, s, a).created && Gone(Apply(h, s, a), e)
  {
    if a.Listen? {
      ListenKeepsGone(s, e);
      EventStepIsLocal(s);
    } else {
      var pushed := PushIsNew(h, s, a);
      if !a.Return? {
        PhaseStays(h, s, a);
      }
    }
  }

  /** An event that has left the queue and the hand of the event thread never comes back. */
  lemma {:induction false} GoneForever(h: HashFn, s: State, more: seq<Action>, e: Event)
    requires Inv(h, s) && e in s.created && Gone(s, e)
    ensures e in After(h, s, more).created && Gone(After(h, s, more), e)
  {
    if more != [] {
      var k := |more| - 1;
      GoneForever(h, s, more[..k], e);
      AlwaysOk(h, s, more[..k]);
      var before := After(h, s, more[..k]);
      if Enabled(before, more[k]) {
        GoneStep(h, before, more[k], e);
      }
    }
  }

  /** The event thread is about to let go of the event in hand: the handler has accepted it, or one of the
      two checks has found it outdated. */
  predicate LetsGo(s: State) {
    || (s.phase.Leaving? && s.phase.handled)
    || (s.phase.Popped? && s.phase.event.sequence != s.sequence)
  }

  /** Once an event has been accepted or found outdated, at the first check or at the second, the handler is
      never entered with it again: it is in no queue and in no hand. */
  lemma AcceptedOnce(h: HashFn, s: State, more: seq<Action>)
    requires Reachable(h, s) && LetsGo(s)
    ensures Gone(After(h, EventStep(s), more), s.phase.event)
  {
    ReachableOk(h, s);
    ReachableHasNoCopies(h, s);
    EventStepKeepsInv(h, s);
    EventStepIsLocal(s);
    assert InHand(s.phase, s.phase.event);
    GoneForever(h, EventStep(s), more, s.phase.event);
  }

  /** The event is outdated and out of the queue, and the handler does not have it. */
  predicate OnItsWayOut(s: State, e: Event) {
    && e.sequence < s.sequence && e in s.created && e !in s.queue
    && (InHand(s.phase, e) ==>
          s.phase.Popped? || s.phase.Entering? || s.phase.Rechecking? || (s.phase.Leaving? && s.phase.handled))
  }

  lemma WayOutStep(h: HashFn, s: State, a: Action, e: Event)
    requires Inv(h, s) && Enabled(s, a) && OnItsWayOut(s, e) && s.sequence <= Apply(h, s, a).sequence
    ensures OnItsWayOut(Apply(h, s, a), e)
  {
    if a.Listen? {
      EventStepIsLocal(s);
    } else {
      var pushed := PushIsNew(h, s, a);
      if !a.Return? {
        PhaseStays(h, s, a);
      }
    }
  }

  /** An outdated event that has been taken from the queue is never put back, nor handed to the handler:
      whichever of the two checks finds it, it is dropped. */
  lemma {:induction false} OutdatedIsDropped(h: HashFn, s: State, more: seq<Action>, e: Event)
    requires Reachable(h, s) && OnItsWayOut(s, e)
    ensures OnItsWayOut(After(h, s, more), e)
  {
    if more != [] {
      var k := |more| - 1;
      OutdatedIsDropped(h, s, more[..k], e);
      ReachableOn(h, s, more[..k]);
      var before := After(h, s, more[..k]);
      ReachableOk(h, before);
      if Enabled(before, more[k]) {
        OnlyTheHandlerAdvances(h, before, more[k]);
        WayOutStep(h, before, more[k], e);
      }
    }
  }
}
