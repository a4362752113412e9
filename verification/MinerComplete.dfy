/** What no run of the miner leaves out: `start` creates every worker, no worker drops a passing hash, skips a
    nonce or gives up, and every solution and timeout is announced (src/qrandomx/qrxminer.cpp:163-241). */
module MinerComplete {
  import opened Basics
  import opened NonceSearch
  import opened MinerSteps
  import opened MinerLocks
  import opened MinerSafety
  import opened MinerTheorems

  // ---------------------------------------------------------------------------------------------
  // The invariant
  // ---------------------------------------------------------------------------------------------

  predicate HasJob(pc: Pc) {
    Resetting(pc) || OnGate(pc) || pc.Spawning?
  }

  /** Every worker of the job exists, unless `start` is still creating them or none does. */
  predicate MadeOk(s: State) {
    var pc := StarterPc(s);
    && (HasJob(pc) ==> s.job == s.request.job && s.threads == Threads(s.request))
    && (pc.Spawning? ==> |s.workers| == pc.next <= s.threads)
    && (pc.LeaveStart? || (s.workers != [] && !pc.Spawning?) ==> |s.workers| == s.threads)
  }

  /** None of the nonces that the worker has gone past solves the job. */
  ghost predicate PassedOver(h: HashFn, job: Job, w: Worker)
    requires WellFormed(job)
  {
    forall k :: 0 <= k < w.tries ==> !Solves(h, job, NthNonce(w.index, w.stride, k))
  }

  ghost predicate Announced(created: seq<Event>, kind: EventKind, sequence: nat) {
    exists e :: e in created && e.kind == kind && e.sequence == sequence
  }

  /** A worker goes on only if its hash fails or a solution is stored, and ends only when told to. */
  ghost predicate Settled(h: HashFn, s: State, i: nat)
    requires i < |s.workers|
  {
    var w := s.workers[i];
    && WellFormed(s.job)
    && (w.pc.NextNonce? && Passes(w.hash, s.job.target) ==> s.found)
    && (w.pc.LeaveSolution? ==> s.found)
    && (w.pc.Exiting? || w.pc.Done? ==> s.stop || s.found)
    && (w.pc.StopAll? ==> Announced(s.created, Timeout, w.sequence))
    && (!s.found ==> PassedOver(h, s.job, w))
  }

  ghost predicate AllSettled(h: HashFn, s: State) {
    forall i :: 0 <= i < |s.workers| ==> Settled(h, s, i)
  }

  ghost predicate SolutionAnnounced(s: State) {
    s.found && !Publishing(s) && !InReset(s) ==> Announced(s.created, Solution, s.jobSequence)
  }

  ghost predicate Complete(h: HashFn, s: State) {
    MadeOk(s) && AllSettled(h, s) && SolutionAnnounced(s)
  }

  // ---------------------------------------------------------------------------------------------
  // Steps of the actors and of the event thread
  // ---------------------------------------------------------------------------------------------

  lemma MutexKeepsMade(s: State, a: nat)
    requires Shapes(s) && a < |s.actors| && ActorOk(s, a) && OnMutex(s.actors[a]) && MadeOk(s)
    ensures MadeOk(MutexStep(s, a))
  {
  }

  lemma StopKeepsMade(s: State, a: nat)
    requires Shapes(s) && a < |s.actors| && ActorOk(s, a) && Stopping(s.actors[a])
    requires StarterApart(s, a) && MadeOk(s)
    ensures MadeOk(StopStep(s, a))
  {
  }

  lemma PrepareKeepsMade(s: State, a: nat)
    requires Shapes(s) && a < |s.actors| && ActorOk(s, a) && Preparing(s.actors[a]) && StarterOk(s) && MadeOk(s)
    ensures MadeOk(PrepareStep(s, a))
  {
  }

  lemma GateKeepsMade(s: State, a: nat)
    requires Shapes(s) && a < |s.actors| && ActorOk(s, a) && OnGate(s.actors[a]) && StarterOk(s) && MadeOk(s)
    ensures MadeOk(GateStep(s, a))
  {
  }

  lemma SpawnKeepsMade(s: State, a: nat)
    requires Shapes(s) && a < |s.actors| && ActorOk(s, a) && s.actors[a].Spawning? && StarterOk(s) && MadeOk(s)
    ensures MadeOk(SpawnStep(s, a))
  {
  }

  lemma ActorKeepsMade(s: State, a: nat)
    requires LockInv(s) && StarterOk(s) && Enabled(s, Step(a)) && MadeOk(s)
    ensures MadeOk(ActorStep(s, a))
  {
    assert ActorOk(s, a);
    StarterIsApart(s, a);
    if OnMutex(s.actors[a]) {
      MutexKeepsMade(s, a);
    } else if Stopping(s.actors[a]) {
      StopKeepsMade(s, a);
    } else if Preparing(s.actors[a]) {
      PrepareKeepsMade(s, a);
    } else if OnGate(s.actors[a]) {
      GateKeepsMade(s, a);
    } else {
      SpawnKeepsMade(s, a);
    }
  }

  /** The workers, the job and the news are the same, and the flags only go up. */
  predicate SameWork(s: State, s': State) {
    && s'.workers == s.workers && s'.job == s.job && s'.created == s.created
    && (s.stop ==> s'.stop) && (s.found ==> s'.found)
  }

  lemma SameWorkSettled(h: HashFn, s: State, s': State)
    requires SameWork(s, s') && AllSettled(h, s)
    ensures AllSettled(h, s')
  {
    forall i | 0 <= i < |s'.workers| ensures Settled(h, s', i) {
      assert Settled(h, s, i);
    }
  }

  lemma SpawnSettles(h: HashFn, s: State, a: nat)
    requires Shapes(s) && a < |s.actors| && ActorOk(s, a) && s.actors[a].Spawning? && StarterOk(s)
    requires AllSettled(h, s)
    ensures AllSettled(h, SpawnStep(s, a))
  {
    SpawnChangesLittle(s, a);
    var s' := SpawnStep(s, a);
    forall i | 0 <= i < |s'.workers| ensures Settled(h, s', i) {
      if i < |s.workers| {
        assert Settled(h, s, i);
      }
    }
  }

  lemma ActorKeepsSettled(h: HashFn, s: State, a: nat)
    requires LockInv(s) && StarterOk(s) && Enabled(s, Step(a)) && AllSettled(h, s)
    ensures AllSettled(h, ActorStep(s, a))
  {
    assert ActorOk(s, a);
    if OnMutex(s.actors[a]) {
      MutexIsQuiet(s, a);
      SameWorkSettled(h, s, MutexStep(s, a));
    } else if Stopping(s.actors[a]) {
      if !s.actors[a].Clear? {
        StopIsQuiet(s, a);
        SameWorkSettled(h, s, StopStep(s, a));
      }
    } else if Preparing(s.actors[a]) {
      assert PrepareStep(s, a).workers == [];
    } else if OnGate(s.actors[a]) {
      GateIsQuiet(s, a);
      SameWorkSettled(h, s, GateStep(s, a));
    } else {
      SpawnSettles(h, s, a);
    }
  }

  lemma QuietKeepsAnnounced(s: State, s': State)
    requires Quiet(s, s') && SolutionAnnounced(s)
    ensures SolutionAnnounced(s')
  {
  }

  lemma PrepareKeepsAnnounced(s: State, a: nat)
    requires a < |s.actors| && ActorOk(s, a) && Preparing(s.actors[a]) && StarterOk(s)
    ensures SolutionAnnounced(PrepareStep(s, a))
  {
  }

  lemma SpawnKeepsAnnounced(h: HashFn, s: State, a: nat)
    requires Shapes(s) && a < |s.actors| && ActorOk(s, a) && s.actors[a].Spawning? && StarterOk(s)
    requires SolutionAnnounced(s)
    ensures SolutionAnnounced(SpawnStep(s, a))
  {
    SpawnChangesLittle(s, a);
    if SpawnStep(s, a).workers != s.workers {
      NewWorkerOk(h, s, SpawnStep(s, a));
    }
  }

  lemma ClearKeepsAnnounced(s: State, a: nat)
    requires Shapes(s) && WorkersLocks(s) && a < |s.actors| && ActorOk(s, a) && s.actors[a].Clear?
    requires SolutionAnnounced(s)
    ensures SolutionAnnounced(StopStep(s, a))
  {
    NoHolderAmongDone(s);
  }

  lemma ActorKeepsAnnounced(h: HashFn, s: State, a: nat)
    requires LockInv(s) && StarterOk(s) && Enabled(s, Step(a)) && SolutionAnnounced(s)
    ensures SolutionAnnounced(ActorStep(s, a))
  {
    assert ActorOk(s, a);
    if OnMutex(s.actors[a]) {
      MutexIsQuiet(s, a);
      QuietKeepsAnnounced(s, MutexStep(s, a));
    } else if s.actors[a].Clear? {
      ClearKeepsAnnounced(s, a);
    } else if Stopping(s.actors[a]) {
      StopIsQuiet(s, a);
      QuietKeepsAnnounced(s, StopStep(s, a));
    } else if Preparing(s.actors[a]) {
      PrepareKeepsAnnounced(s, a);
    } else if OnGate(s.actors[a]) {
      GateIsQuiet(s, a);
      QuietKeepsAnnounced(s, GateStep(s, a));
    } else {
      SpawnKeepsAnnounced(h, s, a);
    }
  }

  /** Any other step that leaves the starter's place and the job as they are. */
  lemma QuietKeepsComplete(h: HashFn, s: State, s': State)
    requires Complete(h, s) && Quiet(s, s') && StarterPc(s') == StarterPc(s) && s'.request == s.request
    ensures Complete(h, s')
  {
    SameWorkSettled(h, s, s');
    QuietKeepsAnnounced(s, s');
  }

  lemma BeginKeepsComplete(h: HashFn, s: State, a: Action)
    requires Inv(h, s) && Complete(h, s) && (a.BeginCancel? || a.BeginStart? || a.BeginRead?) && Enabled(s, a)
    ensures Complete(h, Begun(s, a))
  {
    assert ActorOk(s, a.a);
    var s' := Begun(s, a);
    assert Quiet(s, s');
    SameWorkSettled(h, s, s');
    QuietKeepsAnnounced(s, s');
  }

  // ---------------------------------------------------------------------------------------------
  // Steps of the workers
  // ---------------------------------------------------------------------------------------------

  lemma {:induction false} NextPassesOver(h: HashFn, job: Job, w: Worker, next: Worker)
    requires WellFormed(job) && PassedOver(h, job, w)
    requires next.index == w.index && next.stride == w.stride && next.tries == w.tries + 1
    requires !Solves(h, job, NthNonce(w.index, w.stride, w.tries))
    ensures PassedOver(h, job, next)
  {
  }

  lemma SearchSettles(h: HashFn, s: State, i: nat)
    requires i < |s.workers| && Searching(s.workers[i].pc) && WorkerReady(s, i)
    requires WorkerOk(h, s, i) && Settled(h, s, i)
    ensures |SearchStep(h, s, i).workers| == |s.workers| && Settled(h, SearchStep(h, s, i), i)
  {
    var w := s.workers[i];
    if w.pc.NextNonce? && !s.found {
      NextPassesOver(h, s.job, w, SearchStep(h, s, i).workers[i]);
    }
  }

  lemma TimeoutSettles(h: HashFn, s: State, i: nat)
    requires i < |s.workers| && TimingOut(s.workers[i].pc) && Settled(h, s, i)
    ensures |TimeoutStep(s, i).workers| == |s.workers| && Settled(h, TimeoutStep(s, i), i)
  {
    if s.workers[i].pc.PushTimeout? {
      assert Event(Timeout, s.workers[i].sequence, 0) in TimeoutStep(s, i).created;
    }
  }

  lemma SolutionSettles(h: HashFn, s: State, i: nat)
    requires i < |s.workers| && Publishes(s.workers[i].pc) && Stored(s, i) && Settled(h, s, i)
    ensures |SolutionStep(s, i).workers| == |s.workers| && Settled(h, SolutionStep(s, i), i)
  {
  }

  lemma WorkSettles(h: HashFn, s: State, i: nat)
    requires i < |s.workers| && WorkerReady(s, i) && WorkerOk(h, s, i) && Stored(s, i) && Settled(h, s, i)
    ensures |WorkerStep(h, s, i).workers| == |s.workers| && Settled(h, WorkerStep(h, s, i), i)
  {
    if Searching(s.workers[i].pc) {
      SearchSettles(h, s, i);
    } else if TimingOut(s.workers[i].pc) {
      TimeoutSettles(h, s, i);
    } else {
      SolutionSettles(h, s, i);
    }
  }

  predicate NewsGrow(s: State, s': State) {
    |s.created| <= |s'.created| && s'.created[..|s.created|] == s.created
  }

  lemma WorkAddsNews(h: HashFn, s: State, i: nat)
    requires i < |s.workers| && WorkerReady(s, i)
    ensures NewsGrow(s, WorkerStep(h, s, i))
  {
  }

  lemma AnnouncedStays(s: State, s': State, kind: EventKind, sequence: nat)
    requires NewsGrow(s, s') && Announced(s.created, kind, sequence)
    ensures Announced(s'.created, kind, sequence)
  {
    var e :| e in s.created && e.kind == kind && e.sequence == sequence;
    assert e in s'.created[..|s.created|];
  }

  lemma OtherStaysSettled(h: HashFn, s: State, s': State, i: nat, j: nat)
    requires WorkerOnly(s, s', i) && NewsGrow(s, s') && j < |s.workers| && j != i && Settled(h, s, j)
    ensures Settled(h, s', j)
  {
    if s.workers[j].pc.StopAll? {
      AnnouncedStays(s, s', Timeout, s.workers[j].sequence);
    }
  }

  lemma PublishingAnnounces(h: HashFn, s: State, i: nat)
    requires i < |s.workers| && WorkerReady(s, i) && WorkerLocks(s, i) && WorkerOk(h, s, i) && Stored(s, i)
    requires Publishes(s.workers[i].pc) && SolutionAnnounced(s)
    ensures SolutionAnnounced(SolutionStep(s, i))
  {
    var w, s' := s.workers[i], SolutionStep(s, i);
    if w.pc.PushSolution? {
      assert Event(Solution, w.sequence, w.nonce) in s'.created;
    } else {
      assert s'.created == s.created;
    }
  }

  lemma WorkKeepsAnnounced(h: HashFn, s: State, i: nat)
    requires i < |s.workers| && WorkerReady(s, i) && WorkerLocks(s, i) && WorkerOk(h, s, i) && Stored(s, i)
    requires QueueShaped(s) && SolutionAnnounced(s)
    ensures SolutionAnnounced(WorkerStep(h, s, i))
  {
    WorkerStepIsLocal(h, s, i);
    WorkAddsNews(h, s, i);
    if Searching(s.workers[i].pc) {
      SearchKeepsSolution(h, s, i);
    } else if TimingOut(s.workers[i].pc) {
      TimeoutKeepsSolution(s, i);
    } else {
      PublishingAnnounces(h, s, i);
    }
    if !Publishes(s.workers[i].pc) && s.found && !Publishing(s) && !InReset(s) {
      AnnouncedStays(s, WorkerStep(h, s, i), Solution, s.jobSequence);
    }
  }

  lemma WorkKeepsComplete(h: HashFn, s: State, i: nat)
    requires Inv(h, s) && Complete(h, s) && Enabled(s, Work(i))
    ensures Complete(h, WorkerStep(h, s, i))
  {
    var s' := WorkerStep(h, s, i);
    assert WorkerLocks(s, i) && WorkerOk(h, s, i) && Stored(s, i) && Settled(h, s, i);
    WorkerStepIsLocal(h, s, i);
    WorkAddsNews(h, s, i);
    forall j | 0 <= j < |s'.workers| ensures Settled(h, s', j) {
      if j == i {
        WorkSettles(h, s, i);
      } else {
        assert Settled(h, s, j);
        OtherStaysSettled(h, s, s', i, j);
      }
    }
    WorkKeepsAnnounced(h, s, i);
  }

  lemma ExpireKeepsComplete(h: HashFn, s: State, i: nat)
    requires Inv(h, s) && Complete(h, s) && Enabled(s, Expire(i))
    ensures Complete(h, Apply(h, s, Expire(i)))
  {
    var s' := Apply(h, s, Expire(i));
    forall j | 0 <= j < |s'.workers| ensures Settled(h, s', j) {
      assert Settled(h, s, j);
    }
    assert WorkerLocks(s, i);
    assert Publishing(s') == Publishing(s);
  }

  // ---------------------------------------------------------------------------------------------
  // Runs
  // ---------------------------------------------------------------------------------------------

  lemma StepKeepsComplete(h: HashFn, s: State, a: Action)
    requires Inv(h, s) && Complete(h, s) && Enabled(s, a)
    ensures Complete(h, Apply(h, s, a))
  {
    match a {
      case Step(b) =>
        ActorKeepsMade(s, b);
        ActorKeepsSettled(h, s, b);
        ActorKeepsAnnounced(h, s, b);
      case Listen =>
        EventStepIsQuiet(s);
        QuietKeepsComplete(h, s, EventStep(s));
      case Work(i) => WorkKeepsComplete(h, s, i);
      case Expire(i) => ExpireKeepsComplete(h, s, i);
      case Read(b) =>
        ReadIsLocal(s, b);
        assert ActorOk(s, b);
        ReadIsQuiet(s, ReadStep(s, b), b);
        QuietKeepsComplete(h, s, ReadStep(s, b));
      case Return(handled) => QuietKeepsComplete(h, s, Apply(h, s, a));
      case _ => BeginKeepsComplete(h, s, a);
    }
  }

  lemma {:induction false} RunsAreComplete(h: HashFn, callers: nat, request: Request, schedule: seq<Action>)
    requires WellFormed(request.job)
    ensures Inv(h, After(h, Initial(callers, request), schedule))
    ensures Complete(h, After(h, Initial(callers, request), schedule))
  {
    if schedule == [] {
      InitialOk(h, callers, request);
    } else {
      var k := |schedule| - 1;
      RunsAreComplete(h, callers, request, schedule[..k]);
      var before := After(h, Initial(callers, request), schedule[..k]);
      if Enabled(before, schedule[k]) {
        StepKeepsInv(h, before, schedule[k]);
        StepKeepsComplete(h, before, schedule[k]);
      }
    }
  }

  lemma ReachableComplete(h: HashFn, s: State)
    requires Reachable(h, s)
    ensures Inv(h, s) && Complete(h, s)
  {
    var callers: nat, request: Request, schedule: seq<Action> :|
      WellFormed(request.job) && s == After(h, Initial(callers, request), schedule);
    RunsAreComplete(h, callers, request, schedule);
  }

  // ---------------------------------------------------------------------------------------------
  // What callers can rely on
  // ---------------------------------------------------------------------------------------------

  /** Some worker that exists tries the nonce, before its counter wraps. */
  ghost predicate Covered(s: State, x: Uint32) {
    exists i: nat, k: nat :: i < |s.workers| && Reaches(s.workers[i], k, x)
  }

  predicate Reaches(w: Worker, k: nat, x: Uint32) {
    w.index + k * w.stride < TWO_32 && NthNonce(w.index, w.stride, k) == x
  }

  /** When `start` is about to return it has created the workers that were asked for, each with its own number
      and the step for their count; from 1 to 255 of them leave no nonce out. */
  lemma StartCreatesEveryWorker(h: HashFn, s: State, a: nat)
    requires Reachable(h, s) && s.starter == Some(a) && a < |s.actors| && s.actors[a].LeaveStart?
    ensures var n := if s.request.threadCount == 0 then s.request.hardware else s.request.threadCount;
            && |s.workers| == n && s.job == s.request.job
            && (forall i :: 0 <= i < n ==> s.workers[i].index == i && s.workers[i].stride == n % 256)
            && (1 <= n <= 255 ==> forall x: Uint32 :: Covered(s, x))
  {
    ReachableComplete(h, s);
    forall i | 0 <= i < |s.workers| ensures s.workers[i].index == i && s.workers[i].stride == Stride(s.threads) {
      assert WorkerOk(h, s, i) && Stored(s, i);
    }
    if 1 <= s.threads <= 255 {
      forall x: Uint32 ensures Covered(s, x) {
        NonceIsCovered(s, x);
      }
    }
  }

  lemma NonceIsCovered(s: State, x: Uint32)
    requires 1 <= s.threads <= 255 && |s.workers| == s.threads
    requires forall i :: 0 <= i < |s.workers| ==> s.workers[i].index == i && s.workers[i].stride == Stride(s.threads)
    ensures Covered(s, x)
  {
    NonceIsTried(s.threads, x);
    assert Reaches(s.workers[x % s.threads], x / s.threads, x);
  }

  /** No worker goes on with a passing hash in hand unless a solution is stored, ends unless a solution is
      stored or the stop flag is up, or goes past a nonce that solves a job without a stored solution. */
  lemma NoSolutionIsMissed(h: HashFn, s: State, i: nat)
    requires Reachable(h, s) && i < |s.workers|
    ensures var w := s.workers[i];
            && WellFormed(s.job)
            && (w.pc.NextNonce? && Passes(w.hash, s.job.target) ==> s.found)
            && (w.pc.Exiting? || w.pc.Done? ==> s.stop || s.found)
            && (!s.found ==> forall k :: 0 <= k < w.tries ==> !Solves(h, s.job, NthNonce(w.index, w.stride, k)))
  {
    ReachableComplete(h, s);
    assert Settled(h, s, i);
  }

  /** All workers of the job have gone through their nonces up to the wrap. */
  predicate Exhausted(s: State) {
    forall i :: 0 <= i < |s.workers| ==> s.workers[i].index + s.workers[i].tries * s.workers[i].stride >= TWO_32
  }

  lemma TriedBeforeWrap(n: nat, x: Uint32, tries: nat)
    requires n > 0 && x % n + tries * n >= TWO_32
    ensures x / n < tries
  {
    assert x == x / n * n + x % n;
    if x / n >= tries {
      MulOrder(tries, x / n, n);
    }
  }

  lemma TriesCoverNonce(h: HashFn, s: State, x: Uint32)
    requires 1 <= s.threads <= 255 && |s.workers| == s.threads && Exhausted(s) && !s.found
    requires WorkerOk(h, s, x % s.threads) && Settled(h, s, x % s.threads)
    ensures !Solves(h, s.job, x)
  {
    var w, k := s.workers[x % s.threads], x / s.threads;
    NonceIsTried(s.threads, x);
    TriedBeforeWrap(s.threads, x, w.tries);
    assert !Solves(h, s.job, NthNonce(w.index, w.stride, k));
  }

  /** If the workers of a job of 1 to 255 threads have all been through their nonces and no solution is
      stored, the job has no solution at all. */
  lemma ExhaustedMeansUnsolvable(h: HashFn, s: State, x: Uint32)
    requires Reachable(h, s) && s.workers != [] && !MayGrow(s) && 1 <= s.threads <= 255
    requires Exhausted(s) && !s.found
    ensures WellFormed(s.job) && !Solves(h, s.job, x)
  {
    ReachableComplete(h, s);
    var i := x % s.threads;
    assert WorkerOk(h, s, i) && Stored(s, i);
    assert Settled(h, s, i);
    TriesCoverNonce(h, s, x);
  }

  /** A stored solution has been announced, with the nonce it has, by the time the solution mutex is free. */
  lemma StoredIsAnnounced(h: HashFn, s: State)
    requires Reachable(h, s) && s.found && s.solution == None && !InReset(s)
    ensures WellFormed(s.job) && HasRoom(s.input, s.job.offset)
    ensures exists e :: e in s.created && e.kind.Solution? && e.sequence == s.jobSequence
                        && e.nonce == NonceOf(s.input, s.job.offset)
  {
    ReachableComplete(h, s);
    var e :| e in s.created && e.kind == Solution && e.sequence == s.jobSequence;
    AnnouncedIsStored(h, s, e);
  }

  /** A worker that stops the job after its deadline has announced the timeout first. */
  lemma TimeoutIsAnnounced(h: HashFn, s: State, i: nat)
    requires Reachable(h, s) && i < |s.workers| && s.workers[i].pc.StopAll?
    ensures exists e :: e in s.created && e.kind.Timeout? && e.sequence == s.jobSequence
  {
    ReachableComplete(h, s);
    assert WorkerOk(h, s, i) && Stored(s, i) && Settled(h, s, i);
    var e :| e in s.created && e.kind == Timeout && e.sequence == s.workers[i].sequence;
  }
}
