/** What every run of the miner keeps: workers search the current job, at most one solution is published
    and it is sound, and every event belongs to a job that is not newer than the current one. */
module MinerSafety {
  import opened Basics
  import opened NonceSearch
  import opened MinerSteps
  import opened MinerLocks

  // ---------------------------------------------------------------------------------------------
  // The invariant
  // ---------------------------------------------------------------------------------------------

  /** From the end of its own `cancel` to the running-threads mutex, no workers exist. */
  predicate Alone(pc: Pc) {
    pc.LeaveEvent? || Preparing(pc) || pc.WantSpawn?
  }

  /** From the sequence number its own `cancel` took until it reads the number of the new job. */
  predicate Between(pc: Pc) {
    pc.LeaveRunning? || pc.LeaveEvent? || Preparing(pc)
  }

  predicate Resetting(pc: Pc) {
    pc.LowerStop? || pc.ResetFound? || pc.ReadSequence?
  }

  function StarterPc(s: State): Pc {
    if s.starter.Some? && s.starter.value < |s.actors| then s.actors[s.starter.value] else Idle
  }

  /** Whether `start` has replaced the job but not yet reset the solution of the last one. */
  predicate InReset(s: State) {
    Resetting(StarterPc(s))
  }

  /** Whether workers of the current job may still be created. */
  predicate MayGrow(s: State) {
    StarterPc(s).WantSpawn? || StarterPc(s).Spawning?
  }

  /** Whether the current job has no workers yet. */
  predicate Unborn(s: State) {
    StarterPc(s).WantSpawn? || StarterPc(s) == Spawning(0)
  }

  predicate StarterOk(s: State) {
    var pc := StarterPc(s);
    && s.jobSequence <= s.sequence
    && (Alone(pc) ==> s.workers == [])
    && (Between(pc) ==> s.jobSequence < s.sequence)
    && (pc.Spawning? ==> |s.workers| == pc.next)
    && (pc.ReadSequence? || Unborn(s) ==> !s.found)
    && (s.starter.Some? ==> WellFormed(s.request.job))
    && (s.workers == [] || WellFormed(s.job))
    && (Resetting(pc) || pc.WantSpawn? || pc.Spawning? ==> WellFormed(s.job))
  }

  /** While a `cancel` joins workers the stop flag stays up. */
  predicate StopOk(s: State, a: nat)
    requires a < |s.actors|
  {
    (s.actors[a].Joining? || s.actors[a].Clear?) && s.workers != [] ==> s.stop
  }

  predicate Stamped(pc: WorkerPc) {
    pc.Hashing? || Hashed(pc)
  }

  predicate Hashed(pc: WorkerPc) {
    pc.CheckDeadline? || pc.Compare? || pc.NextNonce? || TimingOut(pc) || Won(pc)
  }

  predicate Won(pc: WorkerPc) {
    pc.WantSolution? || InSolution(pc)
  }

  /** The buffer is the job's input but for the nonce. */
  predicate SameInput(buffer: Bytes, job: Job)
    requires WellFormed(job)
  {
    HasRoom(buffer, job.offset) && WithNonce(buffer, job.offset, 0) == WithNonce(job.input, job.offset, 0)
  }

  /** What a worker's place in its program says about its buffer and hash. */
  predicate Fits(h: HashFn, job: Job, w: Worker)
    requires WellFormed(job)
  {
    && (!w.pc.Born? ==> SameInput(w.buffer, job))
    && (Stamped(w.pc) ==> w.buffer == WithNonce(job.input, job.offset, w.nonce))
    && (Hashed(w.pc) ==> w.hash == h(job.seedHash, w.buffer))
    && (Won(w.pc) ==> Passes(w.hash, job.target))
    && (TimingOut(w.pc) ==> w.index == 0)
  }

  predicate WorkerOk(h: HashFn, s: State, i: nat)
    requires i < |s.workers|
  {
    var w := s.workers[i];
    && WellFormed(s.job)
    && w.index == i && i < s.threads && w.sequence == s.jobSequence && w.stride == Stride(s.threads)
    && w.nonce == NthNonce(w.index, w.stride, w.tries)
    && Fits(h, s.job, w)
  }

  /** Whether a worker has raised the found flag and not yet announced its solution. */
  predicate MidPublish(pc: WorkerPc) {
    pc.SetInput? || pc.SetHash? || pc.QueueSolution? || pc.PushSolution?
  }

  predicate Publishing(s: State) {
    s.solution.Some? && s.solution.value < |s.workers| && MidPublish(s.workers[s.solution.value].pc)
  }

  /** What is stored so far when worker i publishes. */
  predicate Stored(s: State, i: nat)
    requires i < |s.workers|
  {
    var w := s.workers[i];
    && (w.pc.SetFound? ==> !s.found)
    && (MidPublish(w.pc) ==> s.found)
    && (w.pc.SetHash? || w.pc.QueueSolution? || w.pc.PushSolution? ==> s.input == w.buffer)
    && (w.pc.QueueSolution? || w.pc.PushSolution? ==> s.hash == w.hash)
  }

  /** The stored solution: the job's input with four bytes replaced, its hash, below the target. */
  predicate Sound(h: HashFn, s: State) {
    && WellFormed(s.job)
    && |s.input| == |s.job.input|
    && NonceOf(s.input, s.job.offset) < TWO_32
    && s.input == WithNonce(s.job.input, s.job.offset, NonceOf(s.input, s.job.offset))
    && s.hash == h(s.job.seedHash, s.input)
    && Passes(s.hash, s.job.target)
  }

  predicate SolutionOk(h: HashFn, s: State) {
    s.found && !Publishing(s) && !InReset(s) ==> Sound(h, s)
  }

  /** A worker that has queued the timeout event never searches again. */
  predicate TimedOut(pc: WorkerPc) {
    pc.StopAll? || pc.Exiting? || pc.Done?
  }

  predicate EventOk(h: HashFn, s: State, e: Event) {
    && e.sequence <= s.jobSequence
    && (Unborn(s) ==> e.sequence < s.jobSequence)
    && (e.sequence == s.jobSequence && !InReset(s) ==>
          if e.kind.Solution?
          then s.found && !Publishing(s) && Sound(h, s) && NonceOf(s.input, s.job.offset) == e.nonce
          else s.workers != [] ==> TimedOut(s.workers[0].pc) && (s.workers[0].pc.StopAll? || s.stop))
  }

  predicate SameSlot(e: Event, f: Event) {
    e.kind == f.kind && e.sequence == f.sequence
  }

  function Counted(workers: seq<Worker>): nat {
    if workers == [] then 0
    else Counted(workers[..|workers| - 1]) + Counts(workers[|workers| - 1].pc)
  }

  function Counts(pc: WorkerPc): nat {
    if pc.Born? || pc.Done? then 0 else 1
  }

  /** The event the event thread has in hand. */
  predicate InHand(phase: Phase, e: Event) {
    !phase.Listening? && !phase.Popping? && phase.event == e
  }

  predicate PhaseOk(s: State) {
    && (!s.phase.Listening? && !s.phase.Popping? ==> s.phase.event in s.created)
    && (s.phase.Handling? ==> s.sequence == s.phase.event.sequence + s.phase.advances)
  }

  predicate StopsOk(s: State) {
    forall a :: 0 <= a < |s.actors| ==> StopOk(s, a)
  }

  predicate WorkersOk(h: HashFn, s: State) {
    forall i :: 0 <= i < |s.workers| ==> WorkerOk(h, s, i) && Stored(s, i)
  }

  predicate EventsOk(h: HashFn, s: State) {
    forall k :: 0 <= k < |s.created| ==> EventOk(h, s, s.created[k])
  }

  predicate EventsDistinct(created: seq<Event>) {
    forall j, k :: 0 <= j < k < |created| ==> !SameSlot(created[j], created[k])
  }

  predicate QueueKnown(s: State) {
    forall k :: 0 <= k < |s.queue| ==> s.queue[k] in s.created
  }

  predicate Inv(h: HashFn, s: State) {
    && LockInv(s)
    && StarterOk(s)
    && StopsOk(s)
    && WorkersOk(h, s)
    && SolutionOk(h, s)
    && EventsOk(h, s)
    && EventsDistinct(s.created)
    && QueueKnown(s)
    && PhaseOk(s)
    && s.count == Counted(s.workers)
  }

  lemma InitialOk(h: HashFn, callers: nat, request: Request)
    requires WellFormed(request.job)
    ensures Inv(h, Initial(callers, request))
  {
    InitialLocks(callers, request);
  }

  // ---------------------------------------------------------------------------------------------
  // Steps that touch neither the workers nor the solution
  // ---------------------------------------------------------------------------------------------

  /** Nothing the workers' part of the invariant speaks of has changed. */
  predicate Quiet(s: State, s': State) {
    && s'.workers == s.workers && s'.solution == s.solution && s'.found == s.found
    && s'.input == s.input && s'.hash == s.hash && s'.job == s.job && s'.threads == s.threads
    && s'.jobSequence == s.jobSequence && s'.created == s.created && s'.count == s.count
    && InReset(s') == InReset(s) && Unborn(s') == Unborn(s) && (s.stop ==> s'.stop)
  }

  lemma QuietKeeps(h: HashFn, s: State, s': State)
    requires Quiet(s, s')
    requires WorkersOk(h, s) && SolutionOk(h, s) && EventsOk(h, s) && s.count == Counted(s.workers)
    ensures WorkersOk(h, s') && SolutionOk(h, s') && EventsOk(h, s') && s'.count == Counted(s'.workers)
  {
    forall i | 0 <= i < |s'.workers| ensures WorkerOk(h, s', i) && Stored(s', i) {
      assert WorkerOk(h, s, i) && Stored(s, i);
    }
    forall k | 0 <= k < |s'.created| ensures EventOk(h, s', s'.created[k]) {
      assert EventOk(h, s, s.created[k]);
    }
  }

  lemma MutexIsQuiet(s: State, a: nat)
    requires Shapes(s) && a < |s.actors| && ActorOk(s, a) && OnMutex(s.actors[a])
    ensures Quiet(s, MutexStep(s, a))
  {
  }

  lemma GateIsQuiet(s: State, a: nat)
    requires Shapes(s) && a < |s.actors| && ActorOk(s, a) && OnGate(s.actors[a])
    requires StarterOk(s)
    ensures Quiet(s, GateStep(s, a))
  {
  }

  lemma StopIsQuiet(s: State, a: nat)
    requires Shapes(s) && a < |s.actors| && Stopping(s.actors[a]) && !s.actors[a].Clear?
    ensures Quiet(s, StopStep(s, a))
  {
  }

  // ---------------------------------------------------------------------------------------------
  // Control: the thread in start, and the stop flag
  // ---------------------------------------------------------------------------------------------

  /** The thread in `start`, if it is not a itself, holds the running-threads mutex apart from a. */
  predicate StarterApart(s: State, a: nat)
    requires a < |s.actors|
  {
    s.starter.Some? && s.starter.value < |s.actors| && s.starter != Some(a) ==>
      !(InRunning(s.actors[a]) && InRunning(s.actors[s.starter.value]))
  }

  lemma StarterIsApart(s: State, a: nat)
    requires LockInv(s) && a < |s.actors|
    ensures StarterApart(s, a)
  {
    if s.starter.Some? && s.starter != Some(a) {
      assert ActorOk(s, a) && ActorOk(s, s.starter.value);
      RunningIsExclusive(s, a, s.starter.value);
    }
  }

  lemma MutexKeepsStarter(s: State, a: nat)
    requires Shapes(s) && a < |s.actors| && ActorOk(s, a) && OnMutex(s.actors[a])
    requires StarterOk(s) && StarterApart(s, a)
    ensures StarterOk(MutexStep(s, a))
  {
  }

  lemma StopKeepsStarter(s: State, a: nat)
    requires Shapes(s) && a < |s.actors| && ActorOk(s, a) && Stopping(s.actors[a])
    requires StarterOk(s) && StarterApart(s, a)
    ensures StarterOk(StopStep(s, a))
  {
  }

  lemma PrepareKeepsStarter(s: State, a: nat)
    requires Shapes(s) && a < |s.actors| && ActorOk(s, a) && Preparing(s.actors[a])
    requires StarterOk(s) && StarterApart(s, a)
    ensures StarterOk(PrepareStep(s, a))
  {
  }

  lemma GateKeepsStarter(s: State, a: nat)
    requires Shapes(s) && a < |s.actors| && ActorOk(s, a) && OnGate(s.actors[a])
    requires StarterOk(s) && StarterApart(s, a)
    ensures StarterOk(GateStep(s, a))
  {
  }

  lemma SpawnKeepsStarter(s: State, a: nat)
    requires Shapes(s) && a < |s.actors| && ActorOk(s, a) && s.actors[a].Spawning?
    requires StarterOk(s) && StarterApart(s, a)
    ensures StarterOk(SpawnStep(s, a))
  {
  }

  lemma ActorStepKeepsStarter(s: State, a: nat)
    requires Shapes(s) && a < |s.actors| && ActorOk(s, a) && Calling(s.actors[a])
    requires StarterOk(s) && StarterApart(s, a)
    ensures StarterOk(ActorStep(s, a))
  {
    var pc := s.actors[a];
    if OnMutex(pc) {
      MutexKeepsStarter(s, a);
    } else if Stopping(pc) {
      StopKeepsStarter(s, a);
    } else if Preparing(pc) {
      PrepareKeepsStarter(s, a);
    } else if OnGate(pc) {
      GateKeepsStarter(s, a);
    } else {
      SpawnKeepsStarter(s, a);
    }
  }

  lemma MoveKeepsStop(s: State, s': State, a: nat, b: nat)
    requires ActorMove(s, s', a) && b < |s.actors| && ActorOk(s, a) && ActorOk(s, b)
    requires StarterOk(s) && StopOk(s, a) && StopOk(s, b)
    ensures StopOk(s', b)
  {
    if a != b {
      RunningIsExclusive(s, a, b);
    }
  }

  // ---------------------------------------------------------------------------------------------
  // Clearing, preparing, spawning
  // ---------------------------------------------------------------------------------------------

  lemma {:induction false} AllDoneCountZero(workers: seq<Worker>)
    requires DonePrefix(workers, |workers|)
    ensures Counted(workers) == 0
  {
    if workers != [] {
      assert workers[|workers| - 1].pc.Done?;
      AllDoneCountZero(workers[..|workers| - 1]);
    }
  }

  predicate WorkPart(h: HashFn, s: State) {
    WorkersOk(h, s) && SolutionOk(h, s) && EventsOk(h, s) && s.count == Counted(s.workers)
  }

  lemma ClearKeepsEvent(h: HashFn, s: State, a: nat, e: Event)
    requires Shapes(s) && a < |s.actors| && ActorOk(s, a) && s.actors[a].Clear? && s.solution == None
    requires StarterOk(s) && EventOk(h, s, e)
    ensures EventOk(h, StopStep(s, a), e)
  {
  }

  lemma ClearKeepsWork(h: HashFn, s: State, a: nat)
    requires Shapes(s) && WorkersLocks(s) && a < |s.actors| && ActorOk(s, a) && s.actors[a].Clear?
    requires StarterOk(s) && WorkPart(h, s)
    ensures WorkPart(h, StopStep(s, a))
  {
    NoHolderAmongDone(s);
    AllDoneCountZero(s.workers);
    var s' := StopStep(s, a);
    forall k | 0 <= k < |s'.created| ensures EventOk(h, s', s'.created[k]) {
      assert EventOk(h, s, s.created[k]);
      ClearKeepsEvent(h, s, a, s.created[k]);
    }
  }

  lemma PrepareKeepsEvent(h: HashFn, s: State, a: nat, e: Event)
    requires a < |s.actors| && ActorOk(s, a) && Preparing(s.actors[a]) && s.solution == None
    requires StarterOk(s) && EventOk(h, s, e)
    ensures EventOk(h, PrepareStep(s, a), e)
  {
  }

  lemma PrepareKeepsWork(h: HashFn, s: State, a: nat)
    requires Shapes(s) && a < |s.actors| && ActorOk(s, a) && Preparing(s.actors[a])
    requires StarterOk(s) && WorkPart(h, s)
    ensures WorkPart(h, PrepareStep(s, a))
  {
    var s' := PrepareStep(s, a);
    assert s.workers == [] && s.solution == None;
    assert s'.workers == [] && s'.created == s.created && s'.count == s.count;
    forall k | 0 <= k < |s'.created| ensures EventOk(h, s', s'.created[k]) {
      assert EventOk(h, s, s.created[k]);
      PrepareKeepsEvent(h, s, a, s.created[k]);
    }
    PrepareKeepsSolution(h, s, a);
  }

  lemma PrepareKeepsSolution(h: HashFn, s: State, a: nat)
    requires a < |s.actors| && ActorOk(s, a) && Preparing(s.actors[a])
    requires StarterOk(s) && SolutionOk(h, s)
    ensures SolutionOk(h, PrepareStep(s, a))
  {
  }

  /** What the creation of a worker leaves alone. */
  lemma SpawnChangesLittle(s: State, a: nat)
    requires Shapes(s) && a < |s.actors| && ActorOk(s, a) && s.actors[a].Spawning? && StarterOk(s)
    ensures var s' := SpawnStep(s, a);
            && s' == s.(workers := s'.workers, actors := s'.actors)
            && !InReset(s) && !InReset(s') && !Unborn(s')
            && Unborn(s) == (s.workers == [])
            && (s'.workers == s.workers
                || (s'.workers == s.workers + [NewWorker(s, |s.workers|)] && |s.workers| < s.threads))
  {
  }

  lemma NewWorkerOk(h: HashFn, s: State, s': State)
    requires QueueShaped(s) && |s.workers| < s.threads && WellFormed(s.job)
    requires s' == s.(workers := s'.workers, actors := s'.actors)
    requires s'.workers == s.workers + [NewWorker(s, |s.workers|)]
    ensures WorkerOk(h, s', |s.workers|) && Stored(s', |s.workers|)
    ensures Publishing(s') == Publishing(s)
    ensures Counted(s'.workers) == Counted(s.workers)
  {
    assert s'.workers[..|s.workers|] == s.workers;
  }

  lemma SpawnKeepsEvent(h: HashFn, s: State, a: nat, e: Event)
    requires Shapes(s) && a < |s.actors| && ActorOk(s, a) && s.actors[a].Spawning? && StarterOk(s)
    requires EventOk(h, s, e) && Publishing(SpawnStep(s, a)) == Publishing(s)
    ensures EventOk(h, SpawnStep(s, a), e)
  {
    SpawnChangesLittle(s, a);
  }

  lemma SpawnKeepsWork(h: HashFn, s: State, a: nat)
    requires Shapes(s) && a < |s.actors| && ActorOk(s, a) && s.actors[a].Spawning?
    requires StarterOk(s) && WorkPart(h, s)
    ensures WorkPart(h, SpawnStep(s, a))
  {
    var s' := SpawnStep(s, a);
    SpawnChangesLittle(s, a);
    if s'.workers != s.workers {
      NewWorkerOk(h, s, s');
    }
    forall i | 0 <= i < |s'.workers| ensures WorkerOk(h, s', i) && Stored(s', i) {
      if i < |s.workers| {
        assert WorkerOk(h, s, i) && Stored(s, i);
      }
    }
    forall k | 0 <= k < |s'.created| ensures EventOk(h, s', s'.created[k]) {
      assert EventOk(h, s, s.created[k]);
      SpawnKeepsEvent(h, s, a, s.created[k]);
    }
  }

  lemma ActorStepKeepsWork(h: HashFn, s: State, a: nat)
    requires LockInv(s) && Enabled(s, Step(a)) && StarterOk(s) && WorkPart(h, s)
    ensures WorkPart(h, ActorStep(s, a))
  {
    assert ActorOk(s, a);
    var pc := s.actors[a];
    if OnMutex(pc) {
      MutexIsQuiet(s, a);
      QuietKeeps(h, s, MutexStep(s, a));
    } else if pc.Clear? {
      ClearKeepsWork(h, s, a);
    } else if Stopping(pc) {
      StopIsQuiet(s, a);
      QuietKeeps(h, s, StopStep(s, a));
    } else if Preparing(pc) {
      PrepareKeepsWork(h, s, a);
    } else if OnGate(pc) {
      GateIsQuiet(s, a);
      QuietKeeps(h, s, GateStep(s, a));
    } else {
      SpawnKeepsWork(h, s, a);
    }
  }

  // ---------------------------------------------------------------------------------------------
  // A worker's steps
  // ---------------------------------------------------------------------------------------------

  lemma {:induction false} CountMoves(workers: seq<Worker>, i: nat, w: Worker)
    requires i < |workers|
    ensures Counted(workers[i := w]) + Counts(workers[i].pc) == Counted(workers) + Counts(w.pc)
  {
    var n := |workers| - 1;
    if i < n {
      CountMoves(workers[..n], i, w);
      assert workers[i := w][..n] == workers[..n][i := w];
    } else {
      assert workers[i := w][..n] == workers[..n];
    }
  }

  /** Storing a nonce in a buffer that differs from the input at most in its nonce. */
  lemma StampKeepsInput(buffer: Bytes, job: Job, nonce: Uint32)
    requires WellFormed(job) && SameInput(buffer, job)
    ensures WithNonce(buffer, job.offset, nonce) == WithNonce(job.input, job.offset, nonce)
    ensures SameInput(WithNonce(buffer, job.offset, nonce), job)
  {
    NonceRoundTrip(buffer, job.offset, 0, nonce);
    NonceRoundTrip(job.input, job.offset, 0, nonce);
    NonceRoundTrip(buffer, job.offset, nonce, 0);
  }

  lemma WriteKeepsSelf(h: HashFn, s: State, i: nat)
    requires i < |s.workers| && s.workers[i].pc.WriteNonce? && WorkerReady(s, i)
    requires WorkerOk(h, s, i)
    ensures |SearchStep(h, s, i).workers| == |s.workers|
    ensures WorkerOk(h, SearchStep(h, s, i), i) && Stored(SearchStep(h, s, i), i)
  {
    StampKeepsInput(s.workers[i].buffer, s.job, s.workers[i].nonce);
  }

  lemma NextKeepsSelf(h: HashFn, s: State, i: nat)
    requires i < |s.workers| && s.workers[i].pc.NextNonce?
    requires WorkerOk(h, s, i)
    ensures |SearchStep(h, s, i).workers| == |s.workers|
    ensures WorkerOk(h, SearchStep(h, s, i), i) && Stored(SearchStep(h, s, i), i)
  {
    NonceStep(s.workers[i].index, s.workers[i].stride, s.workers[i].tries);
  }

  /** A worker that only moves on, to a place that promises no more. */
  lemma MoveKeepsFit(h: HashFn, job: Job, w: Worker, pc: WorkerPc)
    requires WellFormed(job) && Fits(h, job, w) && !w.pc.Born?
    requires Stamped(pc) ==> Stamped(w.pc)
    requires Hashed(pc) ==> Hashed(w.pc)
    requires Won(pc) ==> Won(w.pc)
    requires TimingOut(pc) ==> TimingOut(w.pc)
    ensures Fits(h, job, w.(pc := pc))
  {
  }

  lemma PutKeepsSelf(h: HashFn, s: State, s': State, i: nat)
    requires i < |s.workers| && WorkerOnly(s, s', i) && WorkerOk(h, s, i)
    requires s'.workers[i] == s.workers[i].(pc := s'.workers[i].pc, buffer := s'.workers[i].buffer,
                                            hash := s'.workers[i].hash)
    requires Fits(h, s.job, s'.workers[i])
    ensures WorkerOk(h, s', i)
  {
  }

  lemma TestKeepsFit(h: HashFn, s: State, i: nat)
    requires i < |s.workers|
    requires s.workers[i].pc.TestStop? || s.workers[i].pc.TestFound?
    requires WellFormed(s.job) && Fits(h, s.job, s.workers[i])
    ensures |SearchStep(h, s, i).workers| == |s.workers|
    ensures Fits(h, s.job, SearchStep(h, s, i).workers[i])
  {
    var w := s.workers[i];
    if w.pc.TestStop? {
      MoveKeepsFit(h, s.job, w, if s.stop then Exiting else TestFound);
    } else {
      MoveKeepsFit(h, s.job, w, if s.found then Exiting else WriteNonce);
    }
  }

  lemma OtherSearchFits(h: HashFn, s: State, i: nat)
    requires i < |s.workers| && Searching(s.workers[i].pc)
    requires !s.workers[i].pc.WriteNonce? && !s.workers[i].pc.NextNonce?
    requires WellFormed(s.job) && Fits(h, s.job, s.workers[i])
    ensures |SearchStep(h, s, i).workers| == |s.workers|
    ensures Fits(h, s.job, SearchStep(h, s, i).workers[i])
  {
    var w := s.workers[i];
    if w.pc.TestStop? || w.pc.TestFound? {
      TestKeepsFit(h, s, i);
    } else if w.pc.CheckDeadline? {
      MoveKeepsFit(h, s.job, w, Compare);
    } else if w.pc.Exiting? {
      MoveKeepsFit(h, s.job, w, Done);
    }
  }

  lemma OtherSearchKeepsSelf(h: HashFn, s: State, i: nat)
    requires i < |s.workers| && Searching(s.workers[i].pc)
    requires !s.workers[i].pc.WriteNonce? && !s.workers[i].pc.NextNonce?
    requires WorkerOk(h, s, i)
    ensures |SearchStep(h, s, i).workers| == |s.workers|
    ensures WorkerOk(h, SearchStep(h, s, i), i) && Stored(SearchStep(h, s, i), i)
  {
    SearchIsLocal(h, s, i);
    OtherSearchFits(h, s, i);
    PutKeepsSelf(h, s, SearchStep(h, s, i), i);
  }

  lemma SearchKeepsSelf(h: HashFn, s: State, i: nat)
    requires i < |s.workers| && Searching(s.workers[i].pc) && WorkerReady(s, i)
    requires WorkerOk(h, s, i)
    ensures |SearchStep(h, s, i).workers| == |s.workers|
    ensures WorkerOk(h, SearchStep(h, s, i), i) && Stored(SearchStep(h, s, i), i)
  {
    if s.workers[i].pc.WriteNonce? {
      WriteKeepsSelf(h, s, i);
    } else if s.workers[i].pc.NextNonce? {
      NextKeepsSelf(h, s, i);
    } else {
      OtherSearchKeepsSelf(h, s, i);
    }
  }

  lemma TimeoutKeepsSelf(h: HashFn, s: State, i: nat)
    requires i < |s.workers| && TimingOut(s.workers[i].pc)
    requires WorkerOk(h, s, i)
    ensures |TimeoutStep(s, i).workers| == |s.workers|
    ensures WorkerOk(h, TimeoutStep(s, i), i) && Stored(TimeoutStep(s, i), i)
  {
  }

  lemma SolutionKeepsSelf(h: HashFn, s: State, i: nat)
    requires i < |s.workers| && Publishes(s.workers[i].pc)
    requires WorkerOk(h, s, i) && Stored(s, i)
    ensures |SolutionStep(s, i).workers| == |s.workers|
    ensures WorkerOk(h, SolutionStep(s, i), i) && Stored(SolutionStep(s, i), i)
  {
    SolutionIsLocal(s, i);
    SolutionMovesOn(s, i);
    MoveKeepsFit(h, s.job, s.workers[i], SolutionStep(s, i).workers[i].pc);
    PutKeepsSelf(h, s, SolutionStep(s, i), i);
    SolutionKeepsStored(s, i);
  }

  lemma SolutionMovesOn(s: State, i: nat)
    requires i < |s.workers| && Publishes(s.workers[i].pc)
    ensures |SolutionStep(s, i).workers| == |s.workers|
    ensures SolutionStep(s, i).workers[i] == s.workers[i].(pc := SolutionStep(s, i).workers[i].pc)
    ensures Won(s.workers[i].pc)
    ensures Won(SolutionStep(s, i).workers[i].pc) || SolutionStep(s, i).workers[i].pc.NextNonce?
  {
  }

  lemma SolutionKeepsStored(s: State, i: nat)
    requires i < |s.workers| && Publishes(s.workers[i].pc)
    requires Stored(s, i)
    ensures |SolutionStep(s, i).workers| == |s.workers|
    ensures Stored(SolutionStep(s, i), i)
  {
  }

  /** The other workers: a worker that stores a solution holds the solution mutex alone. */
  lemma WorkerKeepsOther(h: HashFn, s: State, s': State, i: nat, j: nat)
    requires WorkerOnly(s, s', i) && j < |s.workers| && j != i
    requires WorkerLocks(s, j) && WorkerOk(h, s, j) && Stored(s, j)
    requires (s'.found == s.found && s'.input == s.input && s'.hash == s.hash) || s.solution == Some(i)
    ensures WorkerOk(h, s', j) && Stored(s', j)
  {
  }

  lemma OnlyOwnerStores(h: HashFn, s: State, i: nat)
    requires i < |s.workers| && WorkerReady(s, i) && WorkerLocks(s, i)
    ensures var s' := WorkerStep(h, s, i);
            (s'.found == s.found && s'.input == s.input && s'.hash == s.hash) || s.solution == Some(i)
  {
  }

  lemma WorkerStepKeepsSelf(h: HashFn, s: State, i: nat)
    requires i < |s.workers| && WorkerReady(s, i) && WorkerOk(h, s, i) && Stored(s, i)
    ensures |WorkerStep(h, s, i).workers| == |s.workers|
    ensures WorkerOk(h, WorkerStep(h, s, i), i) && Stored(WorkerStep(h, s, i), i)
  {
    if Searching(s.workers[i].pc) {
      SearchKeepsSelf(h, s, i);
    } else if TimingOut(s.workers[i].pc) {
      TimeoutKeepsSelf(h, s, i);
    } else {
      SolutionKeepsSelf(h, s, i);
    }
  }

  lemma WorkerStepKeepsWorkers(h: HashFn, s: State, i: nat)
    requires WorkersLocks(s) && WorkersOk(h, s) && i < |s.workers| && WorkerReady(s, i)
    ensures WorkersOk(h, WorkerStep(h, s, i))
  {
    var s' := WorkerStep(h, s, i);
    WorkerStepIsLocal(h, s, i);
    assert WorkerLocks(s, i) && WorkerOk(h, s, i) && Stored(s, i);
    OnlyOwnerStores(h, s, i);
    forall j | 0 <= j < |s'.workers| ensures WorkerOk(h, s', j) && Stored(s', j) {
      if j == i {
        WorkerStepKeepsSelf(h, s, i);
      } else {
        assert WorkerLocks(s, j) && WorkerOk(h, s, j) && Stored(s, j);
        WorkerKeepsOther(h, s, s', i, j);
      }
    }
  }

  lemma SearchKeepsCount(h: HashFn, s: State, i: nat)
    requires i < |s.workers| && Searching(s.workers[i].pc) && WorkerReady(s, i)
    requires s.count == Counted(s.workers)
    ensures SearchStep(h, s, i).count == Counted(SearchStep(h, s, i).workers)
  {
    CountMoves(s.workers, i, SearchStep(h, s, i).workers[i]);
  }

  lemma TimeoutKeepsCount(s: State, i: nat)
    requires i < |s.workers| && TimingOut(s.workers[i].pc)
    requires s.count == Counted(s.workers)
    ensures TimeoutStep(s, i).count == Counted(TimeoutStep(s, i).workers)
  {
    CountMoves(s.workers, i, TimeoutStep(s, i).workers[i]);
  }

  lemma SolutionKeepsCount(s: State, i: nat)
    requires i < |s.workers| && Publishes(s.workers[i].pc)
    requires s.count == Counted(s.workers)
    ensures SolutionStep(s, i).count == Counted(SolutionStep(s, i).workers)
  {
    CountMoves(s.workers, i, SolutionStep(s, i).workers[i]);
  }

  lemma WorkerStepKeepsCount(h: HashFn, s: State, i: nat)
    requires i < |s.workers| && WorkerReady(s, i) && s.count == Counted(s.workers)
    ensures WorkerStep(h, s, i).count == Counted(WorkerStep(h, s, i).workers)
  {
    if Searching(s.workers[i].pc) {
      SearchKeepsCount(h, s, i);
    } else if TimingOut(s.workers[i].pc) {
      TimeoutKeepsCount(s, i);
    } else {
      SolutionKeepsCount(s, i);
    }
  }

  // ---------------------------------------------------------------------------------------------
  // A worker's steps: the solution and the events
  // ---------------------------------------------------------------------------------------------

  /** The published solution is what it was. */
  predicate SameSolution(s: State, s': State) {
    && s'.found == s.found && s'.input == s.input && s'.hash == s.hash && Publishing(s') == Publishing(s)
  }

  lemma SearchKeepsSolution(h: HashFn, s: State, i: nat)
    requires i < |s.workers| && Searching(s.workers[i].pc) && WorkerReady(s, i) && WorkerLocks(s, i)
    requires QueueShaped(s)
    ensures SameSolution(s, SearchStep(h, s, i)) && SearchStep(h, s, i).created == s.created
  {
  }

  lemma TimeoutKeepsSolution(s: State, i: nat)
    requires i < |s.workers| && TimingOut(s.workers[i].pc) && WorkerLocks(s, i)
    requires QueueShaped(s)
    ensures SameSolution(s, TimeoutStep(s, i))
  {
  }

  lemma SolutionStaysSound(h: HashFn, s: State, i: nat)
    requires i < |s.workers| && WorkerReady(s, i) && WorkerLocks(s, i) && WorkerOk(h, s, i) && Stored(s, i)
    requires !Searching(s.workers[i].pc) && !TimingOut(s.workers[i].pc) && !InReset(s)
    requires SolutionOk(h, s)
    ensures SolutionOk(h, SolutionStep(s, i))
  {
    var w := s.workers[i];
    if w.pc.PushSolution? {
      NonceRoundTrip(s.job.input, s.job.offset, w.nonce, w.nonce);
    }
  }

  /** A worker that has queued the timeout event raises the stop flag on its way out. */
  predicate EndsOnTimeout(s: State, s': State, i: nat)
    requires i < |s.workers| == |s'.workers|
  {
    TimedOut(s.workers[i].pc) ==>
      TimedOut(s'.workers[i].pc) && (s.workers[i].pc.StopAll? ==> s'.stop || s'.workers[i].pc.StopAll?)
  }

  lemma OldEventStays(h: HashFn, s: State, s': State, i: nat, e: Event)
    requires WorkerOnly(s, s', i) && SameSolution(s, s')
    requires EndsOnTimeout(s, s', i)
    requires EventOk(h, s, e)
    ensures EventOk(h, s', e)
  {
  }

  lemma SolutionKeepsTimeout(h: HashFn, s: State, i: nat, e: Event)
    requires i < |s.workers| && WorkerReady(s, i) && e.kind.Timeout?
    requires !Searching(s.workers[i].pc) && !TimingOut(s.workers[i].pc)
    requires EventOk(h, s, e)
    ensures EventOk(h, SolutionStep(s, i), e)
  {
    SolutionIsLocal(s, i);
  }

  lemma SolutionKeepsEvent(h: HashFn, s: State, i: nat, e: Event)
    requires i < |s.workers| && WorkerReady(s, i) && WorkerLocks(s, i) && Stored(s, i)
    requires !Searching(s.workers[i].pc) && !TimingOut(s.workers[i].pc)
    requires EventOk(h, s, e)
    ensures EventOk(h, SolutionStep(s, i), e)
  {
    if e.kind.Timeout? {
      SolutionKeepsTimeout(h, s, i, e);
    }
  }

  /** The announcement of a solution. */
  lemma PushedSolution(h: HashFn, s: State, i: nat)
    requires i < |s.workers| && s.workers[i].pc.PushSolution?
    requires WorkerLocks(s, i) && WorkerOk(h, s, i) && Stored(s, i) && StarterOk(s)
    ensures EventOk(h, SolutionStep(s, i), Event(Solution, s.workers[i].sequence, s.workers[i].nonce))
  {
    NonceRoundTrip(s.job.input, s.job.offset, s.workers[i].nonce, s.workers[i].nonce);
  }

  lemma PushedTimeout(h: HashFn, s: State, i: nat)
    requires i < |s.workers| && s.workers[i].pc.PushTimeout?
    requires WorkerOk(h, s, i) && StarterOk(s)
    ensures EventOk(h, TimeoutStep(s, i), Event(Timeout, s.workers[i].sequence, 0))
  {
  }

  /** An event that a worker is about to queue has not been created before. */
  lemma PushedIsNew(h: HashFn, s: State, i: nat, e: Event, earlier: Event)
    requires i < |s.workers| && WorkerOk(h, s, i) && WorkerLocks(s, i) && StarterOk(s)
    requires EventOk(h, s, earlier)
    requires || (s.workers[i].pc.PushTimeout? && e == Event(Timeout, s.workers[i].sequence, 0))
             || (s.workers[i].pc.PushSolution? && e == Event(Solution, s.workers[i].sequence, s.workers[i].nonce))
    ensures !SameSlot(earlier, e)
  {
  }

  lemma OldEventsStay(h: HashFn, s: State, s': State, i: nat)
    requires WorkerOnly(s, s', i) && SameSolution(s, s') && EventsOk(h, s)
    requires EndsOnTimeout(s, s', i)
    ensures forall k :: 0 <= k < |s.created| ==> EventOk(h, s', s.created[k])
  {
    forall k | 0 <= k < |s.created| ensures EventOk(h, s', s.created[k]) {
      assert EventOk(h, s, s.created[k]);
      OldEventStays(h, s, s', i, s.created[k]);
    }
  }

  lemma OldEventsStayUnderSolution(h: HashFn, s: State, i: nat)
    requires i < |s.workers| && WorkerReady(s, i) && WorkerLocks(s, i) && Stored(s, i)
    requires !Searching(s.workers[i].pc) && !TimingOut(s.workers[i].pc)
    requires EventsOk(h, s)
    ensures forall k :: 0 <= k < |s.created| ==> EventOk(h, SolutionStep(s, i), s.created[k])
  {
    forall k | 0 <= k < |s.created| ensures EventOk(h, SolutionStep(s, i), s.created[k]) {
      assert EventOk(h, s, s.created[k]);
      SolutionKeepsEvent(h, s, i, s.created[k]);
    }
  }

  lemma NoneLikeIt(h: HashFn, s: State, i: nat, e: Event)
    requires i < |s.workers| && WorkerOk(h, s, i) && WorkerLocks(s, i) && StarterOk(s) && EventsOk(h, s)
    requires || (s.workers[i].pc.PushTimeout? && e == Event(Timeout, s.workers[i].sequence, 0))
             || (s.workers[i].pc.PushSolution? && e == Event(Solution, s.workers[i].sequence, s.workers[i].nonce))
    ensures forall k :: 0 <= k < |s.created| ==> !SameSlot(s.created[k], e)
  {
    forall k | 0 <= k < |s.created| ensures !SameSlot(s.created[k], e) {
      assert EventOk(h, s, s.created[k]);
      PushedIsNew(h, s, i, e, s.created[k]);
    }
  }

  /** What the queue, the created events and the event thread's hand have in common. */
  predicate NewsPart(h: HashFn, s: State) {
    EventsOk(h, s) && EventsDistinct(s.created) && QueueKnown(s) && PhaseOk(s)
  }

  lemma NewsUnchanged(h: HashFn, s: State, s': State)
    requires NewsPart(h, s)
    requires s'.created == s.created && s'.queue == s.queue && s'.phase == s.phase && s'.sequence == s.sequence
    requires forall k :: 0 <= k < |s.created| ==> EventOk(h, s', s.created[k])
    ensures NewsPart(h, s')
  {
  }

  lemma NewsPushed(h: HashFn, s: State, s': State, e: Event)
    requires NewsPart(h, s)
    requires s'.created == s.created + [e] && s'.queue == s.queue + [e]
    requires s'.phase == s.phase && s'.sequence == s.sequence
    requires forall k :: 0 <= k < |s.created| ==> EventOk(h, s', s.created[k])
    requires forall k :: 0 <= k < |s.created| ==> !SameSlot(s.created[k], e)
    requires EventOk(h, s', e)
    ensures NewsPart(h, s')
  {
    assert s'.created[|s.created|] == e;
    forall k | 0 <= k < |s'.queue| ensures s'.queue[k] in s'.created {
      if k < |s.queue| {
        assert s.queue[k] in s.created;
      }
    }
  }

  lemma SearchKeepsNews(h: HashFn, s: State, i: nat)
    requires i < |s.workers| && Searching(s.workers[i].pc) && WorkerReady(s, i) && WorkerLocks(s, i)
    requires QueueShaped(s) && NewsPart(h, s)
    ensures NewsPart(h, SearchStep(h, s, i))
  {
    SearchIsLocal(h, s, i);
    SearchKeepsSolution(h, s, i);
    SearchKeepsQueues(h, s, i);
    OldEventsStay(h, s, SearchStep(h, s, i), i);
    NewsUnchanged(h, s, SearchStep(h, s, i));
  }

  lemma SearchKeepsQueues(h: HashFn, s: State, i: nat)
    requires i < |s.workers| && Searching(s.workers[i].pc) && WorkerReady(s, i)
    ensures SearchStep(h, s, i).queue == s.queue && SearchStep(h, s, i).created == s.created
    ensures |SearchStep(h, s, i).workers| == |s.workers|
    ensures EndsOnTimeout(s, SearchStep(h, s, i), i)
  {
  }

  lemma TimeoutKeepsNews(h: HashFn, s: State, i: nat)
    requires i < |s.workers| && TimingOut(s.workers[i].pc) && WorkerReady(s, i) && WorkerLocks(s, i)
    requires WorkerOk(h, s, i) && StarterOk(s) && QueueShaped(s) && NewsPart(h, s)
    ensures NewsPart(h, TimeoutStep(s, i))
  {
    var w := s.workers[i];
    var s' := TimeoutStep(s, i);
    TimeoutIsLocal(s, i);
    TimeoutKeepsSolution(s, i);
    OldEventsStay(h, s, s', i);
    if w.pc.PushTimeout? {
      PushedTimeout(h, s, i);
      NoneLikeIt(h, s, i, Event(Timeout, w.sequence, 0));
      NewsPushed(h, s, s', Event(Timeout, w.sequence, 0));
    } else {
      NewsUnchanged(h, s, s');
    }
  }

  lemma SolutionKeepsNews(h: HashFn, s: State, i: nat)
    requires i < |s.workers| && WorkerReady(s, i) && WorkerLocks(s, i) && WorkerOk(h, s, i) && Stored(s, i)
    requires !Searching(s.workers[i].pc) && !TimingOut(s.workers[i].pc)
    requires StarterOk(s) && NewsPart(h, s)
    ensures NewsPart(h, SolutionStep(s, i))
  {
    var w := s.workers[i];
    var s' := SolutionStep(s, i);
    SolutionIsLocal(s, i);
    OldEventsStayUnderSolution(h, s, i);
    if w.pc.PushSolution? {
      PushedSolution(h, s, i);
      NoneLikeIt(h, s, i, Event(Solution, w.sequence, w.nonce));
      NewsPushed(h, s, s', Event(Solution, w.sequence, w.nonce));
    } else {
      SolutionKeepsQueues(s, i);
      NewsUnchanged(h, s, s');
    }
  }

  lemma SolutionKeepsQueues(s: State, i: nat)
    requires i < |s.workers| && Publishes(s.workers[i].pc) && !s.workers[i].pc.PushSolution?
    ensures SolutionStep(s, i).queue == s.queue && SolutionStep(s, i).created == s.created
  {
  }

  lemma WorkerStepKeepsNews(h: HashFn, s: State, i: nat)
    requires i < |s.workers| && WorkerReady(s, i) && WorkerLocks(s, i) && WorkerOk(h, s, i) && Stored(s, i)
    requires StarterOk(s) && QueueShaped(s) && NewsPart(h, s)
    ensures NewsPart(h, WorkerStep(h, s, i))
  {
    if Searching(s.workers[i].pc) {
      SearchKeepsNews(h, s, i);
    } else if TimingOut(s.workers[i].pc) {
      TimeoutKeepsNews(h, s, i);
    } else {
      SolutionKeepsNews(h, s, i);
    }
  }

  lemma SameSolutionStaysSound(h: HashFn, s: State, s': State, i: nat)
    requires WorkerOnly(s, s', i) && SameSolution(s, s') && SolutionOk(h, s)
    ensures SolutionOk(h, s')
  {
  }

  lemma WorkerStepKeepsSolution(h: HashFn, s: State, i: nat)
    requires i < |s.workers| && WorkerReady(s, i) && WorkerLocks(s, i) && WorkerOk(h, s, i) && Stored(s, i)
    requires StarterOk(s) && QueueShaped(s) && SolutionOk(h, s)
    ensures SolutionOk(h, WorkerStep(h, s, i))
  {
    if Searching(s.workers[i].pc) {
      SearchIsLocal(h, s, i);
      SearchKeepsSolution(h, s, i);
      SameSolutionStaysSound(h, s, SearchStep(h, s, i), i);
    } else if TimingOut(s.workers[i].pc) {
      TimeoutIsLocal(s, i);
      TimeoutKeepsSolution(s, i);
      SameSolutionStaysSound(h, s, TimeoutStep(s, i), i);
    } else {
      SolutionStaysSound(h, s, i);
    }
  }

  /** A worker leaves the control of the actors alone, and the stop flag only goes up. */
  lemma WorkerOnlyKeepsControl(s: State, s': State, i: nat)
    requires WorkerOnly(s, s', i) && StarterOk(s) && StopsOk(s)
    requires s'.found == s.found || !Unborn(s)
    ensures StarterOk(s') && StopsOk(s')
  {
    forall a | 0 <= a < |s'.actors| ensures StopOk(s', a) {
      assert StopOk(s, a);
    }
  }

  lemma WorkerStepKeepsInv(h: HashFn, s: State, i: nat)
    requires Inv(h, s) && Enabled(s, Work(i))
    ensures Inv(h, WorkerStep(h, s, i))
  {
    assert WorkerLocks(s, i) && WorkerOk(h, s, i) && Stored(s, i);
    WorkerStepIsLocal(h, s, i);
    WorkerStepKeepsLocks(h, s, i);
    WorkerStepKeepsWorkers(h, s, i);
    WorkerStepKeepsSolution(h, s, i);
    WorkerStepKeepsNews(h, s, i);
    WorkerStepKeepsCount(h, s, i);
    WorkerOnlyKeepsControl(s, WorkerStep(h, s, i), i);
  }

  lemma ExpireKeepsWorkers(h: HashFn, s: State, i: nat)
    requires WorkersOk(h, s) && WorkersLocks(s) && Enabled(s, Expire(i))
    ensures WorkersOk(h, Put(s, i, s.workers[i].(pc := QueueTimeout)))
  {
    var s' := Put(s, i, s.workers[i].(pc := QueueTimeout));
    forall j | 0 <= j < |s'.workers| ensures WorkerOk(h, s', j) && Stored(s', j) {
      assert WorkerLocks(s, j) && WorkerOk(h, s, j) && Stored(s, j);
    }
  }

  lemma ExpireKeepsInv(h: HashFn, s: State, i: nat)
    requires Inv(h, s) && Enabled(s, Expire(i))
    ensures Inv(h, Put(s, i, s.workers[i].(pc := QueueTimeout)))
  {
    var s' := Put(s, i, s.workers[i].(pc := QueueTimeout));
    ExpireKeepsLocks(s, i);
    assert WorkerLocks(s, i) && WorkerOk(h, s, i);
    assert WorkerOnly(s, s', i) && SameSolution(s, s');
    WorkerOnlyKeepsControl(s, s', i);
    SameSolutionStaysSound(h, s, s', i);
    OldEventsStay(h, s, s', i);
    NewsUnchanged(h, s, s');
    CountMoves(s.workers, i, s'.workers[i]);
    ExpireKeepsWorkers(h, s, i);
  }

  // ---------------------------------------------------------------------------------------------
  // Every step keeps the invariant
  // ---------------------------------------------------------------------------------------------

  predicate HandPart(s: State) {
    QueueKnown(s) && PhaseOk(s)
  }

  /** Taking a sequence number: while the handler runs, only its own thread can. */
  lemma AdvanceKeepsPhase(s: State, a: nat)
    requires Shapes(s) && a < |s.actors| && ActorOk(s, a) && ActorOk(s, 0) && s.actors[a].Advance?
    requires PhaseOk(s)
    ensures PhaseOk(StopStep(s, a))
  {
  }

  predicate SameHand(s: State, s': State) {
    s'.queue == s.queue && s'.created == s.created && s'.phase == s.phase && s'.sequence == s.sequence
  }

  lemma MutexKeepsHand(s: State, a: nat)
    requires a < |s.actors| && OnMutex(s.actors[a])
    ensures SameHand(s, MutexStep(s, a))
  {
  }

  lemma StopKeepsHand(s: State, a: nat)
    requires a < |s.actors| && Stopping(s.actors[a]) && !s.actors[a].Advance?
    ensures SameHand(s, StopStep(s, a))
  {
  }

  lemma StartKeepsHand(s: State, a: nat)
    requires a < |s.actors|
    ensures Preparing(s.actors[a]) ==> SameHand(s, PrepareStep(s, a))
    ensures OnGate(s.actors[a]) ==> SameHand(s, GateStep(s, a))
    ensures s.actors[a].Spawning? ==> SameHand(s, SpawnStep(s, a))
  {
  }

  lemma ActorStepKeepsRest(s: State, a: nat)
    requires a < |s.actors| && Calling(s.actors[a]) && !s.actors[a].Advance?
    ensures SameHand(s, ActorStep(s, a))
  {
    var pc := s.actors[a];
    if OnMutex(pc) {
      MutexKeepsHand(s, a);
      assert ActorStep(s, a) == MutexStep(s, a);
    } else if Stopping(pc) {
      StopKeepsHand(s, a);
      assert ActorStep(s, a) == StopStep(s, a);
    } else {
      StartKeepsHand(s, a);
    }
  }

  lemma ActorStepKeepsHand(s: State, a: nat)
    requires LockInv(s) && Enabled(s, Step(a)) && HandPart(s)
    ensures HandPart(ActorStep(s, a)) && ActorStep(s, a).created == s.created
  {
    if s.actors[a].Advance? {
      assert ActorOk(s, a) && ActorOk(s, 0);
      AdvanceKeepsPhase(s, a);
    } else {
      ActorStepKeepsRest(s, a);
    }
  }

  lemma ActorStepKeepsInv(h: HashFn, s: State, a: nat)
    requires Inv(h, s) && Enabled(s, Step(a))
    ensures Inv(h, ActorStep(s, a))
  {
    var s' := ActorStep(s, a);
    assert ActorOk(s, a);
    StarterIsApart(s, a);
    ActorStepKeepsLocks(s, a);
    ActorStepKeepsStarter(s, a);
    ActorStepKeepsWork(h, s, a);
    ActorStepKeepsHand(s, a);
    ActorMoves(s, a);
    assert StopOk(s, a);
    forall b | 0 <= b < |s'.actors| ensures StopOk(s', b) {
      assert ActorOk(s, b) && StopOk(s, b);
      MoveKeepsStop(s, s', a, b);
    }
  }

  lemma QueueStaysKnown(s: State, s': State)
    requires QueueKnown(s) && s'.created == s.created
    requires s'.queue == s.queue || (s.queue != [] && s'.queue == s.queue[1..])
          || (|s'.queue| == |s.queue| + 1 && s'.queue == s.queue + [s'.queue[|s.queue|]]
              && s'.queue[|s.queue|] in s.created)
    ensures QueueKnown(s')
  {
    forall k | 0 <= k < |s'.queue| ensures s'.queue[k] in s'.created {
      if s.queue != [] && s'.queue == s.queue[1..] {
        assert s'.queue[k] == s.queue[k + 1];
      }
    }
  }

  lemma EventStepKeepsHand(s: State)
    requires EventThreadReady(s) && HandPart(s)
    ensures HandPart(EventStep(s))
  {
    if s.queue != [] {
      assert s.queue[0] in s.created;
    }
    QueueStaysKnown(s, EventStep(s));
  }

  lemma QuietKeepsInv(h: HashFn, s: State, s': State)
    requires Inv(h, s) && LockInv(s') && Quiet(s, s')
    requires StarterOk(s') && HandPart(s') && s'.stop == s.stop
    requires |s'.actors| == |s.actors|
    requires forall a :: 0 <= a < |s.actors| ==> s'.actors[a] == s.actors[a] || !Stopping(s'.actors[a])
    ensures Inv(h, s')
  {
    QuietKeeps(h, s, s');
    forall a | 0 <= a < |s'.actors| ensures StopOk(s', a) {
      assert StopOk(s, a);
    }
  }

  lemma EventStepIsQuiet(s: State)
    requires EventThreadReady(s) && StarterOk(s)
    ensures Quiet(s, EventStep(s)) && StarterOk(EventStep(s)) && EventOnly(s, EventStep(s))
  {
    EventStepIsLocal(s);
  }

  lemma EventStepKeepsInv(h: HashFn, s: State)
    requires Inv(h, s) && EventThreadReady(s)
    ensures Inv(h, EventStep(s))
  {
    EventStepKeepsLocks(s);
    EventStepIsQuiet(s);
    EventStepKeepsHand(s);
    QuietKeepsInv(h, s, EventStep(s));
  }

  lemma BeginKeepsInv(h: HashFn, s: State, a: Action)
    requires Inv(h, s) && (a.BeginCancel? || a.BeginStart? || a.BeginRead?) && Enabled(s, a)
    ensures Inv(h, Begun(s, a))
  {
    BeginKeepsLocks(s, a);
    assert ActorOk(s, a.a);
    QuietKeepsInv(h, s, Begun(s, a));
  }

  lemma ReadIsQuiet(s: State, s': State, a: nat)
    requires ReadOnly(s, s', a) && ActorOk(s, a) && StarterOk(s)
    ensures Quiet(s, s') && StarterOk(s')
  {
  }

  lemma ReadKeepsInv(h: HashFn, s: State, a: nat)
    requires Inv(h, s) && Enabled(s, Read(a))
    ensures Inv(h, ReadStep(s, a))
  {
    ReadKeepsLocks(s, a);
    ReadIsLocal(s, a);
    assert ActorOk(s, a);
    ReadIsQuiet(s, ReadStep(s, a), a);
    QuietKeepsInv(h, s, ReadStep(s, a));
  }

  lemma ReturnKeepsInv(h: HashFn, s: State, handled: bool)
    requires Inv(h, s) && Enabled(s, Return(handled))
    ensures Inv(h, s.(phase := Leaving(s.phase.event, handled)))
  {
    ReturnKeepsLocks(s, handled);
    QuietKeepsInv(h, s, s.(phase := Leaving(s.phase.event, handled)));
  }

  lemma StepKeepsInv(h: HashFn, s: State, a: Action)
    requires Inv(h, s) && Enabled(s, a)
    ensures Inv(h, Apply(h, s, a))
  {
    match a {
      case Step(b) => ActorStepKeepsInv(h, s, b);
      case Listen => EventStepKeepsInv(h, s);
      case Work(i) => WorkerStepKeepsInv(h, s, i);
      case Expire(i) => ExpireKeepsInv(h, s, i);
      case Read(b) => ReadKeepsInv(h, s, b);
      case Return(handled) => ReturnKeepsInv(h, s, handled);
      case _ => BeginKeepsInv(h, s, a);
    }
  }

  /** The invariant holds in every run. */
  lemma {:induction false} AlwaysOk(h: HashFn, s: State, schedule: seq<Action>)
    requires Inv(h, s)
    ensures Inv(h, After(h, s, schedule))
  {
    if schedule != [] {
      var k := |schedule| - 1;
      AlwaysOk(h, s, schedule[..k]);
      var before := After(h, s, schedule[..k]);
      if Enabled(before, schedule[k]) {
        StepKeepsInv(h, before, schedule[k]);
      }
    }
  }
}
