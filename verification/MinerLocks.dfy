/** Who holds which mutex of the miner in every reachable state, and why its threads never deadlock. */
module MinerLocks {
  import opened Basics
  import opened NonceSearch
  import opened MinerSteps

  // ---------------------------------------------------------------------------------------------
  // The lock invariant
  // ---------------------------------------------------------------------------------------------

  /** How often a thread has taken a recursive mutex. */
  function Depth(lock: Lock, a: nat): nat {
    if lock.owner == Some(a) then lock.depth else 0
  }

  predicate Shaped(lock: Lock, n: nat) {
    match lock.owner
    case None => lock.depth == 0
    case Some(a) => a < n && lock.depth > 0
  }

  /** The part of `cancel` after line 253. */
  predicate InEvent(pc: Pc) {
    Stopping(pc) || pc.WantRunning? || pc.LeaveRunning? || pc.LeaveEvent?
  }

  predicate InRunning(pc: Pc) {
    Stopping(pc) || pc.LeaveRunning? || pc.Spawning? || pc.LeaveStart?
  }

  predicate HandlerHolds(phase: Phase) {
    phase.Rechecking? || phase.Handling? || phase.Leaving?
  }

  function EventHolds(s: State, a: nat): nat
    requires a < |s.actors|
  {
    One(a == 0 && HandlerHolds(s.phase)) + One(InEvent(s.actors[a]))
  }

  predicate ActorLocks(s: State, a: nat)
    requires a < |s.actors|
  {
    && Depth(s.event, a) == EventHolds(s, a)
    && Depth(s.running, a) == One(InRunning(s.actors[a]))
  }

  predicate ReaderOk(s: State, a: nat)
    requires a < |s.actors|
  {
    s.reader == Some(a) <==> s.actors[a].Reading?
  }

  /** Only the thread in `start` is past line 161, and the event thread calls only from its handler. */
  predicate ActorRole(s: State, a: nat)
    requires a < |s.actors|
  {
    && (a == 0 && !s.actors[a].Idle? ==> s.phase.Handling?)
    && (Preparing(s.actors[a]) || OnGate(s.actors[a]) || s.actors[a].Spawning? ==> s.starter == Some(a))
    && (s.starter == Some(a) ==> Calling(s.actors[a]))
  }

  predicate DonePrefix(workers: seq<Worker>, n: nat) {
    n <= |workers| && forall j :: 0 <= j < n ==> workers[j].pc.Done?
  }

  /** What `cancel` has joined so far. */
  predicate Joined(s: State, a: nat)
    requires a < |s.actors|
  {
    match s.actors[a]
    case Joining(k) => DonePrefix(s.workers, k)
    case Clear => DonePrefix(s.workers, |s.workers|)
    case Advance => s.workers == []
    case LeaveRunning => s.workers == []
    case _ => true
  }

  predicate ActorOk(s: State, a: nat)
    requires a < |s.actors|
  {
    ActorLocks(s, a) && ReaderOk(s, a) && ActorRole(s, a) && Joined(s, a)
  }

  /** The code under the solution mutex. */
  predicate InSolution(pc: WorkerPc) {
    || pc.CheckFound? || pc.SetFound? || pc.SetInput? || pc.SetHash?
    || pc.QueueSolution? || pc.PushSolution? || pc.LeaveSolution?
  }

  predicate WorkerPushing(pc: WorkerPc) {
    pc.PushTimeout? || pc.PushSolution?
  }

  predicate WorkerLocks(s: State, i: nat)
    requires i < |s.workers|
  {
    && (s.solution == Some(i) <==> InSolution(s.workers[i].pc))
    && (s.queueLock == Some(WorkerThread(i)) <==> WorkerPushing(s.workers[i].pc))
  }

  predicate QueueShaped(s: State) {
    && (s.queueLock == Some(EventThread) <==> s.phase.Popping? || s.phase.Pushing?)
    && (s.phase.Popping? ==> s.queue != [])
    && (s.queueLock.Some? && s.queueLock.value.WorkerThread? ==> s.queueLock.value.i < |s.workers|)
    && (s.solution.Some? ==> s.solution.value < |s.workers|)
  }

  predicate Shapes(s: State) {
    && |s.actors| > 0
    && Shaped(s.event, |s.actors|)
    && Shaped(s.running, |s.actors|)
    && QueueShaped(s)
    && (s.starter.Some? ==> s.starter.value < |s.actors|)
    && (s.reader.Some? ==> s.reader.value < |s.actors| && s.solution == None)
  }

  predicate ActorsOk(s: State) {
    forall a :: 0 <= a < |s.actors| ==> ActorOk(s, a)
  }

  predicate WorkersLocks(s: State) {
    forall i :: 0 <= i < |s.workers| ==> WorkerLocks(s, i)
  }

  predicate LockInv(s: State) {
    Shapes(s) && ActorsOk(s) && WorkersLocks(s)
  }

  // ---------------------------------------------------------------------------------------------
  // Every step keeps it
  // ---------------------------------------------------------------------------------------------

  /** What a step of `cancel` or `start` waits for, by group. */
  predicate MutexReady(s: State, a: nat)
    requires a < |s.actors|
  {
    && (s.actors[a].WantEvent? ==> Available(s.event, a))
    && (s.actors[a].WantRunning? || s.actors[a].WantSpawn? ==> Available(s.running, a))
  }

  predicate JoinReady(s: State, a: nat)
    requires a < |s.actors|
  {
    s.actors[a].Joining? && s.actors[a].next < |s.workers| ==> s.workers[s.actors[a].next].pc.Done?
  }

  lemma ReadyByGroup(s: State, a: nat)
    requires a < |s.actors| && ActorReady(s, a)
    ensures MutexReady(s, a) && JoinReady(s, a)
  {
  }

  /** Two threads never hold the running-threads mutex at once. */
  lemma RunningIsExclusive(s: State, a: nat, b: nat)
    requires a < |s.actors| && b < |s.actors| && a != b && ActorLocks(s, a) && ActorLocks(s, b)
    ensures !(InRunning(s.actors[a]) && InRunning(s.actors[b]))
  {
  }

  lemma NoHolderAmongDone(s: State)
    requires QueueShaped(s) && WorkersLocks(s) && DonePrefix(s.workers, |s.workers|)
    ensures s.solution == None
    ensures s.queueLock.Some? ==> s.queueLock.value.EventThread?
  {
    forall i | 0 <= i < |s.workers|
      ensures s.solution != Some(i) && s.queueLock != Some(WorkerThread(i))
    {
      assert WorkerLocks(s, i);
    }
  }

  lemma MutexKeepsOwnLocks(s: State, a: nat)
    requires Shapes(s) && a < |s.actors| && ActorLocks(s, a)
    requires OnMutex(s.actors[a]) && MutexReady(s, a)
    ensures ActorLocks(MutexStep(s, a), a)
  {
  }

  lemma MutexKeepsOtherLocks(s: State, a: nat, b: nat)
    requires Shapes(s) && a < |s.actors| && b < |s.actors| && a != b
    requires ActorLocks(s, a) && ActorLocks(s, b)
    requires OnMutex(s.actors[a]) && MutexReady(s, a)
    ensures ActorLocks(MutexStep(s, a), b)
  {
  }

  lemma MutexKeepsRest(s: State, a: nat, b: nat)
    requires a < |s.actors| && b < |s.actors| && ActorOk(s, a) && ActorOk(s, b)
    requires OnMutex(s.actors[a]) && MutexReady(s, a)
    ensures ReaderOk(MutexStep(s, a), b) && ActorRole(MutexStep(s, a), b) && Joined(MutexStep(s, a), b)
  {
    if a != b {
      RunningIsExclusive(s, a, b);
    }
  }

  lemma MutexKeepsActor(s: State, a: nat, b: nat)
    requires Shapes(s) && a < |s.actors| && b < |s.actors| && ActorOk(s, a) && ActorOk(s, b)
    requires OnMutex(s.actors[a]) && MutexReady(s, a)
    ensures |MutexStep(s, a).actors| == |s.actors| && ActorOk(MutexStep(s, a), b)
  {
    MutexKeepsRest(s, a, b);
    if a == b {
      MutexKeepsOwnLocks(s, a);
    } else {
      MutexKeepsOtherLocks(s, a, b);
    }
  }

  lemma MutexKeepsShapes(s: State, a: nat)
    requires Shapes(s) && a < |s.actors| && ActorOk(s, a)
    requires OnMutex(s.actors[a]) && MutexReady(s, a)
    ensures Shapes(MutexStep(s, a))
  {
  }

  lemma StopKeepsOwnLocks(s: State, a: nat)
    requires Shapes(s) && a < |s.actors| && ActorLocks(s, a)
    requires Stopping(s.actors[a]) && JoinReady(s, a)
    ensures ActorLocks(StopStep(s, a), a)
  {
  }

  lemma StopKeepsOtherLocks(s: State, a: nat, b: nat)
    requires Shapes(s) && a < |s.actors| && b < |s.actors| && a != b
    requires ActorLocks(s, a) && ActorLocks(s, b)
    requires Stopping(s.actors[a]) && JoinReady(s, a)
    ensures ActorLocks(StopStep(s, a), b)
  {
  }

  lemma StopKeepsJoined(s: State, a: nat, b: nat)
    requires a < |s.actors| && b < |s.actors| && Joined(s, a) && Joined(s, b)
    requires Stopping(s.actors[a]) && JoinReady(s, a)
    requires a != b ==> !(InRunning(s.actors[a]) && InRunning(s.actors[b]))
    ensures Joined(StopStep(s, a), b)
  {
  }

  lemma StopKeepsRole(s: State, a: nat, b: nat)
    requires a < |s.actors| && b < |s.actors| && ActorRole(s, a) && ActorRole(s, b)
    requires ReaderOk(s, a) && ReaderOk(s, b) && Stopping(s.actors[a])
    ensures ReaderOk(StopStep(s, a), b) && ActorRole(StopStep(s, a), b)
  {
  }

  lemma StopKeepsRest(s: State, a: nat, b: nat)
    requires a < |s.actors| && b < |s.actors| && ActorOk(s, a) && ActorOk(s, b)
    requires Stopping(s.actors[a]) && JoinReady(s, a)
    ensures ReaderOk(StopStep(s, a), b) && ActorRole(StopStep(s, a), b) && Joined(StopStep(s, a), b)
  {
    if a != b {
      RunningIsExclusive(s, a, b);
    }
    StopKeepsRole(s, a, b);
    StopKeepsJoined(s, a, b);
  }

  lemma StopKeepsActor(s: State, a: nat, b: nat)
    requires Shapes(s) && a < |s.actors| && b < |s.actors| && ActorOk(s, a) && ActorOk(s, b)
    requires Stopping(s.actors[a]) && JoinReady(s, a)
    ensures |StopStep(s, a).actors| == |s.actors| && ActorOk(StopStep(s, a), b)
  {
    StopKeepsRest(s, a, b);
    if a == b {
      StopKeepsOwnLocks(s, a);
    } else {
      StopKeepsOtherLocks(s, a, b);
    }
  }

  lemma StopKeepsShapes(s: State, a: nat)
    requires Shapes(s) && a < |s.actors| && ActorOk(s, a)
    requires Stopping(s.actors[a]) && JoinReady(s, a)
    requires s.actors[a].Clear? ==> WorkersLocks(s)
    ensures Shapes(StopStep(s, a))
  {
    if s.actors[a].Clear? {
      NoHolderAmongDone(s);
    }
  }

  lemma PrepareKeepsOwnLocks(s: State, a: nat)
    requires Shapes(s) && a < |s.actors| && ActorLocks(s, a)
    requires Preparing(s.actors[a])
    ensures ActorLocks(PrepareStep(s, a), a)
  {
  }

  lemma PrepareKeepsOtherLocks(s: State, a: nat, b: nat)
    requires Shapes(s) && a < |s.actors| && b < |s.actors| && a != b
    requires ActorLocks(s, a) && ActorLocks(s, b)
    requires Preparing(s.actors[a])
    ensures ActorLocks(PrepareStep(s, a), b)
  {
  }

  lemma PrepareKeepsRest(s: State, a: nat, b: nat)
    requires a < |s.actors| && b < |s.actors| && ActorOk(s, a) && ActorOk(s, b)
    requires Preparing(s.actors[a])
    ensures ReaderOk(PrepareStep(s, a), b) && ActorRole(PrepareStep(s, a), b) && Joined(PrepareStep(s, a), b)
  {
    if a != b {
      RunningIsExclusive(s, a, b);
    }
  }

  lemma PrepareKeepsActor(s: State, a: nat, b: nat)
    requires Shapes(s) && a < |s.actors| && b < |s.actors| && ActorOk(s, a) && ActorOk(s, b)
    requires Preparing(s.actors[a])
    ensures |PrepareStep(s, a).actors| == |s.actors| && ActorOk(PrepareStep(s, a), b)
  {
    PrepareKeepsRest(s, a, b);
    if a == b {
      PrepareKeepsOwnLocks(s, a);
    } else {
      PrepareKeepsOtherLocks(s, a, b);
    }
  }

  lemma PrepareKeepsShapes(s: State, a: nat)
    requires Shapes(s) && a < |s.actors| && ActorOk(s, a)
    requires Preparing(s.actors[a])
    ensures Shapes(PrepareStep(s, a))
  {
  }

  lemma GateKeepsOwnLocks(s: State, a: nat)
    requires Shapes(s) && a < |s.actors| && ActorLocks(s, a)
    requires OnGate(s.actors[a]) && MutexReady(s, a)
    ensures ActorLocks(GateStep(s, a), a)
  {
  }

  lemma GateKeepsOtherLocks(s: State, a: nat, b: nat)
    requires Shapes(s) && a < |s.actors| && b < |s.actors| && a != b
    requires ActorLocks(s, a) && ActorLocks(s, b)
    requires OnGate(s.actors[a]) && MutexReady(s, a)
    ensures ActorLocks(GateStep(s, a), b)
  {
  }

  lemma GateKeepsRest(s: State, a: nat, b: nat)
    requires a < |s.actors| && b < |s.actors| && ActorOk(s, a) && ActorOk(s, b)
    requires OnGate(s.actors[a]) && MutexReady(s, a)
    ensures ReaderOk(GateStep(s, a), b) && ActorRole(GateStep(s, a), b) && Joined(GateStep(s, a), b)
  {
    if a != b {
      RunningIsExclusive(s, a, b);
    }
  }

  lemma GateKeepsActor(s: State, a: nat, b: nat)
    requires Shapes(s) && a < |s.actors| && b < |s.actors| && ActorOk(s, a) && ActorOk(s, b)
    requires OnGate(s.actors[a]) && MutexReady(s, a)
    ensures |GateStep(s, a).actors| == |s.actors| && ActorOk(GateStep(s, a), b)
  {
    GateKeepsRest(s, a, b);
    if a == b {
      GateKeepsOwnLocks(s, a);
    } else {
      GateKeepsOtherLocks(s, a, b);
    }
  }

  lemma GateKeepsShapes(s: State, a: nat)
    requires Shapes(s) && a < |s.actors| && ActorOk(s, a)
    requires OnGate(s.actors[a]) && MutexReady(s, a)
    ensures Shapes(GateStep(s, a))
  {
  }

  lemma SpawnKeepsOwnLocks(s: State, a: nat)
    requires Shapes(s) && a < |s.actors| && ActorLocks(s, a)
    requires s.actors[a].Spawning?
    ensures ActorLocks(SpawnStep(s, a), a)
  {
  }

  lemma SpawnKeepsOtherLocks(s: State, a: nat, b: nat)
    requires Shapes(s) && a < |s.actors| && b < |s.actors| && a != b
    requires ActorLocks(s, a) && ActorLocks(s, b)
    requires s.actors[a].Spawning?
    ensures ActorLocks(SpawnStep(s, a), b)
  {
  }

  lemma SpawnKeepsRest(s: State, a: nat, b: nat)
    requires a < |s.actors| && b < |s.actors| && ActorOk(s, a) && ActorOk(s, b)
    requires s.actors[a].Spawning?
    ensures ReaderOk(SpawnStep(s, a), b) && ActorRole(SpawnStep(s, a), b) && Joined(SpawnStep(s, a), b)
  {
    if a != b {
      RunningIsExclusive(s, a, b);
    }
  }

  lemma SpawnKeepsActor(s: State, a: nat, b: nat)
    requires Shapes(s) && a < |s.actors| && b < |s.actors| && ActorOk(s, a) && ActorOk(s, b)
    requires s.actors[a].Spawning?
    ensures |SpawnStep(s, a).actors| == |s.actors| && ActorOk(SpawnStep(s, a), b)
  {
    SpawnKeepsRest(s, a, b);
    if a == b {
      SpawnKeepsOwnLocks(s, a);
    } else {
      SpawnKeepsOtherLocks(s, a, b);
    }
  }

  lemma SpawnKeepsShapes(s: State, a: nat)
    requires Shapes(s) && a < |s.actors| && ActorOk(s, a)
    requires s.actors[a].Spawning?
    ensures Shapes(SpawnStep(s, a))
  {
  }

  lemma ActorStepKeepsShapes(s: State, a: nat)
    requires LockInv(s) && Enabled(s, Step(a))
    ensures Shapes(ActorStep(s, a)) && |ActorStep(s, a).actors| == |s.actors|
  {
    assert ActorOk(s, a);
    ReadyByGroup(s, a);
    var pc := s.actors[a];
    if OnMutex(pc) {
      MutexKeepsShapes(s, a);
    } else if Stopping(pc) {
      StopKeepsShapes(s, a);
    } else if Preparing(pc) {
      PrepareKeepsShapes(s, a);
    } else if OnGate(pc) {
      GateKeepsShapes(s, a);
    } else {
      SpawnKeepsShapes(s, a);
    }
  }

  lemma ActorStepKeepsActor(s: State, a: nat, b: nat)
    requires Shapes(s) && a < |s.actors| && b < |s.actors| && ActorOk(s, a) && ActorOk(s, b)
    requires Calling(s.actors[a]) && ActorReady(s, a)
    ensures |ActorStep(s, a).actors| == |s.actors| && ActorOk(ActorStep(s, a), b)
  {
    ReadyByGroup(s, a);
    var pc := s.actors[a];
    if OnMutex(pc) {
      MutexKeepsActor(s, a, b);
    } else if Stopping(pc) {
      StopKeepsActor(s, a, b);
    } else if Preparing(pc) {
      PrepareKeepsActor(s, a, b);
    } else if OnGate(pc) {
      GateKeepsActor(s, a, b);
    } else {
      SpawnKeepsActor(s, a, b);
    }
  }

  /** What a step of an actor does to the workers: nothing, all removed, or one more. */
  predicate WorkersMove(s: State, s': State, pc: Pc) {
    && s'.solution == s.solution && s'.queueLock == s.queueLock
    && (|| s'.workers == s.workers
        || (pc.Clear? && s'.workers == [])
        || (pc.Spawning? && |s'.workers| == |s.workers| + 1
            && s'.workers == s.workers + [s'.workers[|s.workers|]] && s'.workers[|s.workers|].pc.Born?))
  }

  /** What it does to the program counters and the stop flag. */
  predicate ActorMove(s: State, s': State, a: nat) {
    && a < |s.actors| == |s'.actors| && s'.actors == s.actors[a := s'.actors[a]]
    && WorkersMove(s, s', s.actors[a])
    && ((s.stop && !s.actors[a].LowerStop?) || s.actors[a].RaiseStop? ==> s'.stop)
    && (s'.actors[a].Joining? || s'.actors[a].Clear? ==> s.actors[a].RaiseStop? || s.actors[a].Joining?)
  }

  lemma MutexMoves(s: State, a: nat)
    requires a < |s.actors| && OnMutex(s.actors[a])
    ensures ActorMove(s, MutexStep(s, a), a)
  {
  }

  lemma StopMoves(s: State, a: nat)
    requires a < |s.actors| && Stopping(s.actors[a])
    ensures ActorMove(s, StopStep(s, a), a)
  {
  }

  lemma PrepareMoves(s: State, a: nat)
    requires a < |s.actors| && Preparing(s.actors[a])
    ensures ActorMove(s, PrepareStep(s, a), a)
  {
  }

  lemma GateMoves(s: State, a: nat)
    requires a < |s.actors| && OnGate(s.actors[a])
    ensures ActorMove(s, GateStep(s, a), a)
  {
  }

  lemma SpawnMoves(s: State, a: nat)
    requires a < |s.actors| && s.actors[a].Spawning?
    ensures ActorMove(s, SpawnStep(s, a), a)
  {
  }

  lemma ActorMoves(s: State, a: nat)
    requires a < |s.actors| && Calling(s.actors[a])
    ensures ActorMove(s, ActorStep(s, a), a)
  {
    if OnMutex(s.actors[a]) {
      MutexMoves(s, a);
    } else if Stopping(s.actors[a]) {
      StopMoves(s, a);
    } else if Preparing(s.actors[a]) {
      PrepareMoves(s, a);
    } else if OnGate(s.actors[a]) {
      GateMoves(s, a);
    } else {
      SpawnMoves(s, a);
    }
  }

  lemma NobodyBeyond(s: State, s': State)
    requires QueueShaped(s) && s'.solution == s.solution && s'.queueLock == s.queueLock
    requires |s.workers| < |s'.workers| && s'.workers[|s.workers|].pc.Born?
    ensures WorkerLocks(s', |s.workers|)
  {
  }

  lemma ActorStepKeepsWorker(s: State, a: nat, i: nat)
    requires QueueShaped(s) && a < |s.actors| && Calling(s.actors[a])
    requires i < |s.workers| ==> WorkerLocks(s, i)
    requires i < |ActorStep(s, a).workers|
    ensures WorkerLocks(ActorStep(s, a), i)
  {
    ActorMoves(s, a);
    if i == |s.workers| {
      NobodyBeyond(s, ActorStep(s, a));
    }
  }

  lemma ActorStepKeepsLocks(s: State, a: nat)
    requires LockInv(s) && Enabled(s, Step(a))
    ensures LockInv(ActorStep(s, a))
  {
    assert ActorOk(s, a);
    var s' := ActorStep(s, a);
    ActorStepKeepsShapes(s, a);
    forall b | 0 <= b < |s'.actors| ensures ActorOk(s', b) {
      assert ActorOk(s, b);
      ActorStepKeepsActor(s, a, b);
    }
    forall i | 0 <= i < |s'.workers| ensures WorkerLocks(s', i) {
      assert i < |s.workers| ==> WorkerLocks(s, i);
      ActorStepKeepsWorker(s, a, i);
    }
  }

  /** What a thread does when it begins a call. */
  function Begun(s: State, a: Action): State
    requires a.BeginCancel? || a.BeginStart? || a.BeginRead?
    requires a.a < |s.actors|
  {
    match a
    case BeginCancel(b) => Go(s, b, WantEvent)
    case BeginStart(b, request) => Go(s, b, WantEvent).(starter := Some(b), request := request)
    case BeginRead(b) => Go(s, b, WantRead)
  }

  lemma BeginKeepsActor(s: State, a: Action, b: nat)
    requires (a.BeginCancel? || a.BeginStart? || a.BeginRead?) && Enabled(s, a)
    requires ActorOk(s, a.a) && b < |s.actors| && ActorOk(s, b)
    ensures ActorOk(Begun(s, a), b)
  {
  }

  lemma BeginKeepsLocks(s: State, a: Action)
    requires LockInv(s) && (a.BeginCancel? || a.BeginStart? || a.BeginRead?) && Enabled(s, a)
    ensures LockInv(Begun(s, a))
  {
    var s' := Begun(s, a);
    forall b | 0 <= b < |s.actors| ensures ActorOk(s', b) {
      assert ActorOk(s, a.a) && ActorOk(s, b);
      BeginKeepsActor(s, a, b);
    }
    forall i | 0 <= i < |s.workers| ensures WorkerLocks(s', i) {
      assert WorkerLocks(s, i);
    }
  }

  /** The fields a step of an accessor leaves alone. */
  predicate ReadOnly(s: State, s': State, a: nat) {
    && a < |s.actors| == |s'.actors|
    && s' == s.(actors := s.actors[a := s'.actors[a]], reader := s'.reader)
    && InAccessor(s.actors[a]) && (s'.actors[a].Reading? || s'.actors[a].Idle?)
  }

  lemma ReadIsLocal(s: State, a: nat)
    requires Enabled(s, Read(a))
    ensures ReadOnly(s, ReadStep(s, a), a)
  {
  }

  lemma ReadKeepsActor(s: State, s': State, a: nat, b: nat)
    requires ReadOnly(s, s', a) && b < |s.actors| && ActorOk(s, b) && ActorOk(s, a)
    requires s'.reader == if s'.actors[a].Reading? then Some(a) else None
    requires s.reader == None || s.reader == Some(a)
    ensures ActorOk(s', b)
  {
  }

  lemma ReadKeepsLocks(s: State, a: nat)
    requires LockInv(s) && Enabled(s, Read(a))
    ensures LockInv(ReadStep(s, a))
  {
    var s' := ReadStep(s, a);
    assert ActorOk(s, a);
    ReadIsLocal(s, a);
    forall b | 0 <= b < |s.actors| ensures ActorOk(s', b) {
      assert ActorOk(s, b);
      ReadKeepsActor(s, s', a, b);
    }
    forall i | 0 <= i < |s.workers| ensures WorkerLocks(s', i) {
      assert WorkerLocks(s, i);
    }
  }

  /** The fields a step of the event thread leaves alone. */
  predicate EventOnly(s: State, s': State) {
    && s'.actors == s.actors && s'.running == s.running && s'.solution == s.solution && s'.reader == s.reader
    && s'.workers == s.workers && s'.starter == s.starter && s'.request == s.request
    && s'.stop == s.stop && s'.found == s.found && s'.input == s.input && s'.hash == s.hash
    && s'.sequence == s.sequence && s'.job == s.job && s'.threads == s.threads
    && s'.jobSequence == s.jobSequence && s'.count == s.count && s'.created == s.created
  }

  lemma EventStepIsLocal(s: State)
    requires EventThreadReady(s)
    ensures EventOnly(s, EventStep(s))
  {
  }

  lemma EventStepKeepsQueue(s: State)
    requires QueueShaped(s) && EventThreadReady(s)
    ensures QueueShaped(EventStep(s))
  {
  }

  lemma EventStepKeepsEventLock(s: State)
    requires |s.actors| > 0 && Shaped(s.event, |s.actors|) && EventThreadReady(s)
    ensures Shaped(EventStep(s).event, |s.actors|)
  {
  }

  lemma EventStepKeepsShapes(s: State)
    requires Shapes(s) && ActorOk(s, 0) && EventThreadReady(s)
    ensures Shapes(EventStep(s))
  {
    EventStepIsLocal(s);
    EventStepKeepsQueue(s);
    EventStepKeepsEventLock(s);
  }

  lemma EventStepKeepsActorLocks(s: State, b: nat)
    requires EventThreadReady(s) && |s.actors| > 0 && ActorOk(s, 0) && Shaped(s.event, |s.actors|)
    requires b < |s.actors| && ActorLocks(s, b)
    ensures EventOnly(s, EventStep(s)) && ActorLocks(EventStep(s), b)
  {
    EventStepIsLocal(s);
  }

  lemma EventStepKeepsActor(s: State, b: nat)
    requires Shapes(s) && ActorOk(s, 0) && EventThreadReady(s)
    requires b < |s.actors| && ActorOk(s, b)
    ensures EventOnly(s, EventStep(s)) && ActorOk(EventStep(s), b)
  {
    EventStepIsLocal(s);
    EventStepKeepsActorLocks(s, b);
  }

  lemma EventStepKeepsWorker(s: State, i: nat)
    requires EventThreadReady(s) && QueueShaped(s)
    requires i < |s.workers| && WorkerLocks(s, i)
    ensures EventOnly(s, EventStep(s)) && WorkerLocks(EventStep(s), i)
  {
    EventStepIsLocal(s);
  }

  lemma EventStepKeepsLocks(s: State)
    requires LockInv(s) && EventThreadReady(s)
    ensures LockInv(EventStep(s))
  {
    assert ActorOk(s, 0);
    EventStepIsLocal(s);
    EventStepKeepsShapes(s);
    forall b | 0 <= b < |s.actors| ensures ActorOk(EventStep(s), b) {
      assert ActorOk(s, b);
      EventStepKeepsActor(s, b);
    }
    forall i | 0 <= i < |s.workers| ensures WorkerLocks(EventStep(s), i) {
      assert WorkerLocks(s, i);
      EventStepKeepsWorker(s, i);
    }
  }

  lemma ReturnKeepsLocks(s: State, handled: bool)
    requires LockInv(s) && Enabled(s, Return(handled))
    ensures LockInv(s.(phase := Leaving(s.phase.event, handled)))
  {
    var s' := s.(phase := Leaving(s.phase.event, handled));
    forall b | 0 <= b < |s.actors| ensures ActorOk(s', b) {
      assert ActorOk(s, b);
    }
    forall i | 0 <= i < |s.workers| ensures WorkerLocks(s', i) {
      assert WorkerLocks(s, i);
    }
  }

  /** What a worker's step may change: itself, and the fields the actors' part of the invariant ignores. */
  predicate WorkerOnly(s: State, s': State, i: nat) {
    && i < |s.workers| == |s'.workers|
    && s'.workers == s.workers[i := s'.workers[i]]
    && !s.workers[i].pc.Done?
    && s'.actors == s.actors && s'.event == s.event && s'.running == s.running && s'.reader == s.reader
    && s'.phase == s.phase && s'.starter == s.starter && s'.request == s.request
    && s'.job == s.job && s'.threads == s.threads
    && s'.jobSequence == s.jobSequence && s'.sequence == s.sequence
    && (s.stop ==> s'.stop)
    && (s.found ==> s'.found)
  }

  lemma WorkerOnlyKeepsActor(s: State, s': State, i: nat, b: nat)
    requires WorkerOnly(s, s', i) && b < |s.actors| && ActorOk(s, b)
    ensures ActorOk(s', b)
  {
  }

  lemma SearchIsLocal(h: HashFn, s: State, i: nat)
    requires i < |s.workers| && Searching(s.workers[i].pc) && WorkerReady(s, i)
    ensures WorkerOnly(s, SearchStep(h, s, i), i)
  {
  }

  lemma TimeoutIsLocal(s: State, i: nat)
    requires i < |s.workers| && TimingOut(s.workers[i].pc)
    ensures WorkerOnly(s, TimeoutStep(s, i), i)
  {
  }

  lemma SolutionIsLocal(s: State, i: nat)
    requires i < |s.workers| && Publishes(s.workers[i].pc)
    ensures WorkerOnly(s, SolutionStep(s, i), i)
  {
  }

  lemma SearchKeepsOwn(h: HashFn, s: State, i: nat)
    requires i < |s.workers| && Searching(s.workers[i].pc) && WorkerReady(s, i) && WorkerLocks(s, i)
    ensures |SearchStep(h, s, i).workers| == |s.workers| && WorkerLocks(SearchStep(h, s, i), i)
  {
  }

  lemma SearchKeepsWorker(h: HashFn, s: State, i: nat, j: nat)
    requires i < |s.workers| && Searching(s.workers[i].pc) && WorkerReady(s, i)
    requires WorkerLocks(s, i) && j < |s.workers| && WorkerLocks(s, j)
    ensures |SearchStep(h, s, i).workers| == |s.workers| && WorkerLocks(SearchStep(h, s, i), j)
  {
    SearchKeepsOwn(h, s, i);
    SearchIsLocal(h, s, i);
    SearchKeepsMutexes(h, s, i);
  }

  lemma SearchKeepsMutexes(h: HashFn, s: State, i: nat)
    requires i < |s.workers| && Searching(s.workers[i].pc) && WorkerReady(s, i)
    ensures SearchStep(h, s, i).solution == s.solution && SearchStep(h, s, i).queueLock == s.queueLock
  {
  }

  lemma TimeoutKeepsWorker(s: State, i: nat, j: nat)
    requires i < |s.workers| && TimingOut(s.workers[i].pc) && WorkerReady(s, i)
    requires WorkerLocks(s, i) && j < |s.workers| && WorkerLocks(s, j)
    ensures WorkerLocks(TimeoutStep(s, i), j)
  {
  }

  lemma SolutionKeepsOwn(s: State, i: nat)
    requires i < |s.workers| && WorkerReady(s, i) && WorkerLocks(s, i)
    requires !Searching(s.workers[i].pc) && !TimingOut(s.workers[i].pc)
    ensures WorkerLocks(SolutionStep(s, i), i)
  {
  }

  lemma SolutionKeepsOther(s: State, i: nat, j: nat)
    requires i < |s.workers| && WorkerReady(s, i) && WorkerLocks(s, i)
    requires !Searching(s.workers[i].pc) && !TimingOut(s.workers[i].pc)
    requires j < |s.workers| && WorkerLocks(s, j) && i != j
    ensures WorkerLocks(SolutionStep(s, i), j)
  {
  }

  lemma SearchKeepsQueue(h: HashFn, s: State, i: nat)
    requires i < |s.workers| && WorkerReady(s, i) && Searching(s.workers[i].pc)
    requires QueueShaped(s) && WorkerLocks(s, i)
    ensures QueueShaped(SearchStep(h, s, i))
  {
  }

  lemma TimeoutKeepsQueue(s: State, i: nat)
    requires i < |s.workers| && WorkerReady(s, i) && TimingOut(s.workers[i].pc)
    requires QueueShaped(s) && WorkerLocks(s, i)
    ensures QueueShaped(TimeoutStep(s, i))
  {
  }

  lemma SolutionKeepsQueue(s: State, i: nat)
    requires i < |s.workers| && WorkerReady(s, i) && !Searching(s.workers[i].pc) && !TimingOut(s.workers[i].pc)
    requires QueueShaped(s) && WorkerLocks(s, i)
    ensures QueueShaped(SolutionStep(s, i))
  {
  }

  lemma WorkerStepIsLocal(h: HashFn, s: State, i: nat)
    requires i < |s.workers| && WorkerReady(s, i)
    ensures WorkerOnly(s, WorkerStep(h, s, i), i)
  {
    if Searching(s.workers[i].pc) {
      SearchIsLocal(h, s, i);
    } else if TimingOut(s.workers[i].pc) {
      TimeoutIsLocal(s, i);
    } else {
      SolutionIsLocal(s, i);
    }
  }

  lemma WorkerStepKeepsWorker(h: HashFn, s: State, i: nat, j: nat)
    requires i < |s.workers| && WorkerReady(s, i)
    requires WorkerLocks(s, i) && j < |s.workers| && WorkerLocks(s, j)
    ensures |WorkerStep(h, s, i).workers| == |s.workers|
    ensures WorkerLocks(WorkerStep(h, s, i), j)
  {
    WorkerStepIsLocal(h, s, i);
    if Searching(s.workers[i].pc) {
      SearchKeepsWorker(h, s, i, j);
    } else if TimingOut(s.workers[i].pc) {
      TimeoutKeepsWorker(s, i, j);
    } else if i == j {
      SolutionKeepsOwn(s, i);
    } else {
      SolutionKeepsOther(s, i, j);
    }
  }

  lemma WorkerStepKeepsShapes(h: HashFn, s: State, i: nat)
    requires Shapes(s) && i < |s.workers| && WorkerReady(s, i) && WorkerLocks(s, i)
    ensures Shapes(WorkerStep(h, s, i))
  {
    WorkerStepIsLocal(h, s, i);
    if Searching(s.workers[i].pc) {
      SearchKeepsQueue(h, s, i);
    } else if TimingOut(s.workers[i].pc) {
      TimeoutKeepsQueue(s, i);
    } else {
      SolutionKeepsQueue(s, i);
    }
  }

  lemma WorkerStepKeepsLocks(h: HashFn, s: State, i: nat)
    requires LockInv(s) && Enabled(s, Work(i))
    ensures LockInv(WorkerStep(h, s, i))
  {
    var s' := WorkerStep(h, s, i);
    WorkerStepIsLocal(h, s, i);
    assert WorkerLocks(s, i);
    WorkerStepKeepsShapes(h, s, i);
    forall b | 0 <= b < |s.actors| ensures ActorOk(s', b) {
      assert ActorOk(s, b);
      WorkerOnlyKeepsActor(s, s', i, b);
    }
    forall j | 0 <= j < |s'.workers| ensures WorkerLocks(s', j) {
      assert WorkerLocks(s, j);
      WorkerStepKeepsWorker(h, s, i, j);
    }
  }

  lemma ExpireKeepsLocks(s: State, i: nat)
    requires LockInv(s) && Enabled(s, Expire(i))
    ensures LockInv(Put(s, i, s.workers[i].(pc := QueueTimeout)))
  {
    var s' := Put(s, i, s.workers[i].(pc := QueueTimeout));
    forall b | 0 <= b < |s.actors| ensures ActorOk(s', b) {
      assert ActorOk(s, b);
      WorkerOnlyKeepsActor(s, s', i, b);
    }
    forall j | 0 <= j < |s.workers| ensures WorkerLocks(s', j) {
      assert WorkerLocks(s, j);
    }
  }

  lemma StepKeepsLocks(h: HashFn, s: State, a: Action)
    requires LockInv(s) && Enabled(s, a)
    ensures LockInv(Apply(h, s, a))
  {
    match a {
      case Step(b) => ActorStepKeepsLocks(s, b);
      case BeginCancel(_) => BeginKeepsLocks(s, a);
      case BeginStart(_, _) => BeginKeepsLocks(s, a);
      case BeginRead(_) => BeginKeepsLocks(s, a);
      case Read(b) => ReadKeepsLocks(s, b);
      case Listen => EventStepKeepsLocks(s);
      case Return(handled) => ReturnKeepsLocks(s, handled);
      case Work(i) => WorkerStepKeepsLocks(h, s, i);
      case Expire(i) => ExpireKeepsLocks(s, i);
    }
  }

  lemma InitialLocks(callers: nat, request: Request)
    ensures LockInv(Initial(callers, request))
  {
  }

  // ---------------------------------------------------------------------------------------------
  // Deadlock freedom
  // ---------------------------------------------------------------------------------------------

  /** A thread: an actor (actor 0 is the event thread) or a worker. */
  datatype Party = Actor(a: nat) | Mine(i: nat)

  predicate Exists(s: State, x: Party) {
    match x
    case Actor(a) => a < |s.actors|
    case Mine(i) => i < |s.workers|
  }

  /** Whether a thread has something left to do. */
  predicate Active(s: State, x: Party)
    requires Exists(s, x)
  {
    match x
    case Actor(a) => !s.actors[a].Idle? || (a == 0 && (!s.phase.Listening? || s.queue != []))
    case Mine(i) => !s.workers[i].pc.Done?
  }

  datatype Resource = EventMutex | RunningMutex | Thread(i: nat) | SolutionMutex | QueueMutex | Nothing

  /** What a thread's next step has to wait for; a recursive mutex never holds up its owner. */
  function Wants(s: State, x: Party): Resource
    requires Exists(s, x)
  {
    match x
    case Actor(a) =>
      (match s.actors[a]
       case WantEvent => if s.event.owner == Some(a) then Nothing else EventMutex
       case WantRunning => RunningMutex
       case WantSpawn => RunningMutex
       case WantRead => SolutionMutex
       case Joining(k) => if k < |s.workers| then Thread(k) else Nothing
       case Idle =>
         if a != 0 then Nothing
         else if s.phase.Entering? then EventMutex
         else if s.phase.Listening? || s.phase.Requeuing? then QueueMutex
         else Nothing
       case _ => Nothing)
    case Mine(i) =>
      if s.workers[i].pc.WantSolution? then SolutionMutex
      else if s.workers[i].pc.QueueTimeout? || s.workers[i].pc.QueueSolution? then QueueMutex
      else Nothing
  }

  /** The order in which resources are taken. */
  function Level(r: Resource): nat {
    match r
    case EventMutex => 0
    case RunningMutex => 1
    case Thread(_) => 2
    case SolutionMutex => 3
    case QueueMutex => 4
    case Nothing => 5
  }

  predicate QueueHeldBy(s: State, y: Party) {
    match y
    case Mine(i) => s.queueLock == Some(WorkerThread(i))
    case Actor(a) => a == 0 && s.queueLock == Some(EventThread)
  }

  /** Thread x can only go on after y has moved. */
  predicate WaitsFor(s: State, x: Party, y: Party)
    requires Exists(s, x) && Exists(s, y)
  {
    && Active(s, x)
    && match Wants(s, x)
       case EventMutex => y.Actor? && x != y && s.event.owner == Some(y.a)
       case RunningMutex => y.Actor? && x != y && s.running.owner == Some(y.a)
       case Thread(k) => y == Mine(k) && !s.workers[k].pc.Done?
       case SolutionMutex => if y.Mine? then s.solution == Some(y.i) else s.reader == Some(y.a)
       case QueueMutex => QueueHeldBy(s, y)
       case Nothing => false
  }

  predicate PartyOk(s: State, x: Party) {
    && Exists(s, x)
    && (x.Actor? ==> ActorOk(s, x.a))
    && (x.Mine? ==> WorkerLocks(s, x.i))
  }

  /** The waits-for relation is acyclic: along it the wanted resource only moves up the order event
      mutex, running-threads mutex, joins, solution mutex, queue mutex; and whoever is waited for has
      something to do. */
  lemma WaitsAscend(s: State, x: Party, y: Party)
    requires Shapes(s) && PartyOk(s, x) && PartyOk(s, y)
    requires WaitsFor(s, x, y)
    ensures Active(s, y)
    ensures Level(Wants(s, x)) < Level(Wants(s, y))
  {
  }

  /** The thread's own next step, when nothing holds it up. */
  function NextOf(s: State, x: Party): Action
    requires Exists(s, x)
  {
    match x
    case Actor(a) =>
      if InAccessor(s.actors[a]) then Read(a)
      else if !s.actors[a].Idle? then Step(a)
      else if s.phase.Handling? then Return(true) else Listen
    case Mine(i) => Work(i)
  }

  /** An active thread can step unless some other thread holds what it wants. */
  lemma StepOrWait(s: State, x: Party) returns (y: Party)
    requires LockInv(s) && PartyOk(s, x) && Active(s, x)
    requires x.Mine? ==> (s.workers[x.i].pc.WriteNonce? ==> HasRoom(s.workers[x.i].buffer, s.job.offset))
    ensures Enabled(s, NextOf(s, x)) || (PartyOk(s, y) && WaitsFor(s, x, y))
  {
    y := x;
    if !Enabled(s, NextOf(s, x)) {
      match Wants(s, x) {
        case EventMutex => y := Actor(s.event.owner.value);
        case RunningMutex => y := Actor(s.running.owner.value);
        case Thread(k) => y := Mine(k);
        case SolutionMutex => y := if s.reader.Some? then Actor(s.reader.value) else Mine(s.solution.value);
        case QueueMutex =>
          y := if s.queueLock.value.EventThread? then Actor(0) else Mine(s.queueLock.value.i);
        case Nothing =>
      }
    }
  }

  predicate Roomy(s: State) {
    forall i :: 0 <= i < |s.workers| && s.workers[i].pc.WriteNonce? ==> HasRoom(s.workers[i].buffer, s.job.offset)
  }

  /** From any thread with something to do, the threads it waits for lead to one that can step. */
  lemma SomeoneCanStep(s: State, x: Party) returns (y: Party)
    requires LockInv(s) && Roomy(s) && PartyOk(s, x) && Active(s, x)
    ensures PartyOk(s, y) && Active(s, y) && Enabled(s, NextOf(s, y))
    decreases 5 - Level(Wants(s, x))
  {
    y := x;
    if !Enabled(s, NextOf(s, x)) {
      var z := StepOrWait(s, x);
      WaitsAscend(s, x, z);
      y := SomeoneCanStep(s, z);
    }
  }
}
