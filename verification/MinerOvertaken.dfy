/** Why the silence after `cancel` needs that no `start` is in progress: `start` lets go of the event mutex
    before it reads the sequence number, so a `cancel` can slip in between (lines 161-177 and 251-262). */
module MinerOvertaken {
  import opened Basics
  import opened NonceSearch
  import opened MinerSteps
  import opened MinerLocks
  import opened MinerTheorems
  import opened MinerRuns

  // ---------------------------------------------------------------------------------------------
  // A job with an outdated sequence number is never heard of
  // ---------------------------------------------------------------------------------------------

  predicate Outdated(s: State) {
    s.jobSequence < s.sequence
  }

  /** The action lets a `start` read the number of its job. */
  predicate ReadsNumber(s: State, a: Action) {
    a.Step? && Enabled(s, a) && s.actors[a.a].ReadSequence?
  }

  /** No `start` reads the number of a job in the schedule. */
  predicate NoNewNumber(h: HashFn, s: State, more: seq<Action>) {
    more != [] ==>
      NoNewNumber(h, s, more[..|more| - 1]) && !ReadsNumber(After(h, s, more[..|more| - 1]), more[|more| - 1])
  }

  lemma ActorKeepsNumber(s: State, a: nat)
    requires a < |s.actors| && Calling(s.actors[a]) && !s.actors[a].ReadSequence?
    ensures ActorStep(s, a).jobSequence == s.jobSequence
  {
  }

  lemma StaysOutdated(h: HashFn, s: State, a: Action)
    requires Reachable(h, s) && Outdated(s) && Enabled(s, a) && !ReadsNumber(s, a)
    ensures Outdated(Apply(h, s, a))
  {
    OnlyTheHandlerAdvances(h, s, a);
    match a {
      case Step(b) => ActorKeepsNumber(s, b);
      case Work(i) => WorkerStepIsLocal(h, s, i);
      case Listen => EventStepIsLocal(s);
      case _ =>
    }
  }

  lemma {:induction false} OutdatedOn(h: HashFn, s: State, more: seq<Action>)
    requires Reachable(h, s) && Outdated(s) && NoNewNumber(h, s, more)
    ensures Outdated(After(h, s, more))
  {
    if more != [] {
      var k := |more| - 1;
      OutdatedOn(h, s, more[..k]);
      ReachableOn(h, s, more[..k]);
      var before := After(h, s, more[..k]);
      if Enabled(before, more[k]) {
        StaysOutdated(h, before, more[k]);
      }
    }
  }

  /** Until a `start` reads a new number, such a job's events are all dropped, although its workers may go
      on. */
  lemma OutdatedJobIsSilent(h: HashFn, s: State, more: seq<Action>, a: Action)
    requires Reachable(h, s) && Outdated(s) && NoNewNumber(h, s, more)
    requires Enabled(After(h, s, more), a) && !After(h, s, more).phase.Handling?
    ensures !Apply(h, After(h, s, more), a).phase.Handling?
  {
    OutdatedOn(h, s, more);
    ReachableOn(h, s, more);
    var t := After(h, s, more);
    ReachableOk(h, t);
    if Apply(h, t, a).phase.Handling? {
      HandlerEntry(h, t, a);
      AnnouncedIsStored(h, t, t.phase.event);
    }
  }

  // ---------------------------------------------------------------------------------------------
  // A run that leads to one
  // ---------------------------------------------------------------------------------------------

  /** Lines 177-241 for one thread. */
  lemma SpawnOne(h: HashFn, s: State, a: nat) returns (t: State)
    requires Reachable(h, s) && a < |s.actors| && s.actors[a].WantSpawn?
    requires s.running == FREE && s.threads == 1 && s.workers == []
    ensures Reachable(h, t)
    ensures t == s.(workers := [NewWorker(s, 0)], starter := None, actors := s.actors[a := Idle])
  {
    t := DoGate(h, s, a);
    assert t == s.(running := HeldBy(a), actors := s.actors[a := Spawning(0)]);
    t := DoSpawn(h, t, a);
    assert t == s.(running := HeldBy(a), workers := [NewWorker(s, 0)], actors := s.actors[a := Spawning(1)]);
    t := DoSpawn(h, t, a);
    assert t == s.(running := HeldBy(a), workers := [NewWorker(s, 0)], actors := s.actors[a := LeaveStart]);
    t := DoGate(h, t, a);
  }

  /** A `cancel` of thread 2 that overlaps a `start` of thread 1: both return, a worker searches with the
      stop flag down, and the job's sequence number is already outdated. */
  lemma CancelOvertakesStart(h: HashFn, request: Request) returns (t: State)
    requires WellFormed(request.job) && request.threadCount == 1
    ensures Reachable(h, t) && Outdated(t) && t.starter == None
    ensures t.actors == [Idle, Idle, Idle] && t.job == request.job
    ensures |t.workers| == 1 && t.workers[0].pc.Born? && !t.stop && !t.found
  {
    t := StartFirstHalf(h, request);
    t := Do(h, t, BeginCancel(2));
    assert t.actors == [Idle, LowerStop, WantEvent];
    t := CancelFirstHalf(h, t, 2);
    t := ResetAndRead(h, t, 1);
    t := CancelSecondHalf(h, t, 2);
    t := SpawnOne(h, t, 1);
  }
}
