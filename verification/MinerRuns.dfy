/** Concrete runs of the miner, step by step, with two threads that may call it. */
module MinerRuns {
  import opened Basics
  import opened NonceSearch
  import opened MinerSteps
  import opened MinerTheorems

  lemma Do(h: HashFn, s: State, a: Action) returns (t: State)
    requires Reachable(h, s) && Enabled(s, a)
    ensures Reachable(h, t) && t == Apply(h, s, a)
  {
    ReachableStep(h, s, a);
    t := Apply(h, s, a);
  }

  lemma DoMutex(h: HashFn, s: State, a: nat) returns (t: State)
    requires Reachable(h, s) && a < |s.actors| && OnMutex(s.actors[a]) && ActorReady(s, a)
    ensures Reachable(h, t) && t == MutexStep(s, a)
  {
    t := Do(h, s, Step(a));
  }

  lemma DoStop(h: HashFn, s: State, a: nat) returns (t: State)
    requires Reachable(h, s) && a < |s.actors| && Stopping(s.actors[a]) && ActorReady(s, a)
    ensures Reachable(h, t) && t == StopStep(s, a)
  {
    t := Do(h, s, Step(a));
  }

  lemma DoPrepare(h: HashFn, s: State, a: nat) returns (t: State)
    requires Reachable(h, s) && a < |s.actors| && Preparing(s.actors[a]) && ActorReady(s, a)
    ensures Reachable(h, t) && t == PrepareStep(s, a)
  {
    t := Do(h, s, Step(a));
  }

  lemma DoGate(h: HashFn, s: State, a: nat) returns (t: State)
    requires Reachable(h, s) && a < |s.actors| && OnGate(s.actors[a]) && ActorReady(s, a)
    ensures Reachable(h, t) && t == GateStep(s, a)
  {
    t := Do(h, s, Step(a));
  }

  lemma DoSpawn(h: HashFn, s: State, a: nat) returns (t: State)
    requires Reachable(h, s) && a < |s.actors| && s.actors[a].Spawning? && ActorReady(s, a)
    ensures Reachable(h, t) && t == SpawnStep(s, a)
  {
    t := Do(h, s, Step(a));
  }

  lemma DoSearch(h: HashFn, s: State, i: nat) returns (t: State)
    requires Reachable(h, s) && i < |s.workers| && Searching(s.workers[i].pc) && WorkerReady(s, i)
    ensures Reachable(h, t) && t == SearchStep(h, s, i)
  {
    t := Do(h, s, Work(i));
  }

  lemma DoTimeout(h: HashFn, s: State, i: nat) returns (t: State)
    requires Reachable(h, s) && i < |s.workers| && TimingOut(s.workers[i].pc) && WorkerReady(s, i)
    ensures Reachable(h, t) && t == TimeoutStep(s, i)
  {
    t := Do(h, s, Work(i));
  }

  lemma DoPublish(h: HashFn, s: State, i: nat) returns (t: State)
    requires Reachable(h, s) && i < |s.workers| && Publishes(s.workers[i].pc) && WorkerReady(s, i)
    ensures Reachable(h, t) && t == SolutionStep(s, i)
  {
    t := Do(h, s, Work(i));
  }

  function HeldBy(a: nat): Lock {
    Lock(Some(a), 1)
  }

  /** A `cancel` without workers, up to the sequence number. */
  lemma CancelFirstHalf(h: HashFn, s: State, a: nat) returns (t: State)
    requires Reachable(h, s) && a < |s.actors| && s.actors[a].WantEvent?
    requires s.event == FREE && s.running == FREE && s.workers == []
    ensures Reachable(h, t)
    ensures t == s.(event := HeldBy(a), running := HeldBy(a), stop := true, actors := s.actors[a := Advance])
  {
    t := DoMutex(h, s, a);
    assert t == s.(event := HeldBy(a), actors := s.actors[a := WantRunning]);
    t := DoMutex(h, t, a);
    assert t == s.(event := HeldBy(a), running := HeldBy(a), actors := s.actors[a := RaiseStop]);
    t := DoStop(h, t, a);
    assert t == s.(event := HeldBy(a), running := HeldBy(a), stop := true, actors := s.actors[a := Joining(0)]);
    t := DoStop(h, t, a);
    t := DoStop(h, t, a);
  }

  /** The rest of `cancel`. */
  lemma CancelSecondHalf(h: HashFn, s: State, a: nat) returns (t: State)
    requires Reachable(h, s) && 0 < a < |s.actors| && s.actors[a].Advance?
    requires s.event == HeldBy(a) && s.running == HeldBy(a)
    ensures Reachable(h, t)
    ensures t == s.(event := FREE, running := FREE, sequence := s.sequence + 1,
                    actors := s.actors[a := if s.starter == Some(a) then SetJob else Idle])
  {
    t := DoStop(h, s, a);
    assert t == s.(sequence := s.sequence + 1, actors := s.actors[a := LeaveRunning]);
    t := DoMutex(h, t, a);
    assert t == s.(running := FREE, sequence := s.sequence + 1, actors := s.actors[a := LeaveEvent]);
    t := DoMutex(h, t, a);
  }

  /** Lines 170-175. */
  lemma ResetAndRead(h: HashFn, s: State, a: nat) returns (t: State)
    requires Reachable(h, s) && a < |s.actors| && s.actors[a].LowerStop?
    ensures Reachable(h, t)
    ensures t == s.(stop := false, found := false, jobSequence := s.sequence, actors := s.actors[a := WantSpawn])
  {
    t := DoPrepare(h, s, a);
    assert t == s.(stop := false, actors := s.actors[a := ResetFound]);
    t := DoPrepare(h, t, a);
    assert t == s.(stop := false, found := false, actors := s.actors[a := ReadSequence]);
    t := DoPrepare(h, t, a);
  }

  /** A `start` of thread 1 that has set its job, with the stop flag still up. */
  lemma StartFirstHalf(h: HashFn, request: Request) returns (t: State)
    requires WellFormed(request.job) && request.threadCount > 0
    ensures Reachable(h, t)
    ensures t == Initial(2, request).(stop := true, sequence := 1, threads := request.threadCount,
                                      starter := Some(1), actors := [Idle, LowerStop, Idle])
  {
    var s := Initial(2, request);
    assert s == After(h, s, []);
    assert s.actors == [Idle, Idle, Idle];
    t := Do(h, s, BeginStart(1, request));
    t := CancelFirstHalf(h, t, 1);
    t := CancelSecondHalf(h, t, 1);
    assert t.actors == [Idle, SetJob, Idle];
    t := Do(h, t, Step(1));
    assert t.actors == [Idle, LowerStop, Idle];
  }
}
