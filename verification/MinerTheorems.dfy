/** What the miner promises, over all runs: sound solutions, one event of a kind per job, deliveries that
    are never stale, silence after `cancel`, and no deadlock. */
module MinerTheorems {
  import opened Basics
  import opened Bignum
  import opened NonceSearch
  import opened MinerSteps
  import opened MinerLocks
  import opened MinerSafety

  /** A state that some run from a new miner leads to. */
  ghost predicate Reachable(h: HashFn, s: State) {
    exists callers: nat, request: Request, schedule: seq<Action> ::
      WellFormed(request.job) && s == After(h, Initial(callers, request), schedule)
  }

  lemma ReachableOk(h: HashFn, s: State)
    requires Reachable(h, s)
    ensures Inv(h, s)
  {
    var callers: nat, request: Request, schedule: seq<Action> :|
      WellFormed(request.job) && s == After(h, Initial(callers, request), schedule);
    InitialOk(h, callers, request);
    AlwaysOk(h, Initial(callers, request), schedule);
  }

  // ---------------------------------------------------------------------------------------------
  // Solutions
  // ---------------------------------------------------------------------------------------------

  /** Whoever sees a solution under the solution mutex, an accessor that holds it included, sees the job's
      input with nothing but its nonce replaced, the hash of exactly that input, and a hash that meets the
      target; except while `start` has set its job and not yet taken the last solution back. */
  lemma SolutionIsSound(h: HashFn, s: State)
    requires Reachable(h, s)
    requires s.found && s.solution == None && !InReset(s)
    ensures WellFormed(s.job) && |s.input| == |s.job.input|
    ensures forall k :: 0 <= k < |s.input| && !(s.job.offset <= k < s.job.offset + NONCE_BYTES) ==>
      s.input[k] == s.job.input[k]
    ensures s.hash == h(s.job.seedHash, s.input)
    ensures |s.hash| == WIDTH && LittleEndian(s.hash) <= LittleEndian(s.job.target)
  {
    ReachableOk(h, s);
    NonceRoundTrip(s.job.input, s.job.offset, NonceOf(s.input, s.job.offset), 0);
  }

  /** All workers of all jobs together create at most one solution and one timeout per sequence number. */
  lemma OneEventOfAKind(h: HashFn, s: State, j: nat, k: nat)
    requires Reachable(h, s) && j < k < |s.created|
    ensures s.created[j].kind != s.created[k].kind || s.created[j].sequence != s.created[k].sequence
  {
    ReachableOk(h, s);
    assert !SameSlot(s.created[j], s.created[k]);
  }

  /** An announced solution is the stored one. */
  lemma AnnouncedIsStored(h: HashFn, s: State, e: Event)
    requires Reachable(h, s) && e in s.created
    ensures e.sequence <= s.jobSequence <= s.sequence
    ensures e.kind.Solution? && e.sequence == s.jobSequence && !InReset(s) ==>
      s.found && Sound(h, s) && NonceOf(s.input, s.job.offset) == e.nonce
  {
    ReachableOk(h, s);
    var k :| 0 <= k < |s.created| && s.created[k] == e;
    assert EventOk(h, s, s.created[k]);
  }

  /** A timeout ends its job: once the worker that announced it is on its way out, the stop flag is up
      for all others, and it stays up as long as they exist. */
  lemma TimeoutStopsTheJob(h: HashFn, s: State, e: Event)
    requires Reachable(h, s) && e in s.created && e.kind.Timeout? && e.sequence == s.jobSequence
    requires s.workers != [] && !s.workers[0].pc.StopAll?
    ensures s.stop && TimedOut(s.workers[0].pc)
  {
    ReachableOk(h, s);
    var k :| 0 <= k < |s.created| && s.created[k] == e;
    assert EventOk(h, s, s.created[k]);
  }

  // ---------------------------------------------------------------------------------------------
  // Deliveries
  // ---------------------------------------------------------------------------------------------

  /** While the handler runs, the sequence number is the event's plus what the handler's own calls
      added; before the first of them, a delivered solution is the stored one. */
  lemma HandlerSeesCurrentJob(h: HashFn, s: State)
    requires Reachable(h, s) && s.phase.Handling?
    ensures s.sequence == s.phase.event.sequence + s.phase.advances
    ensures s.phase.event.kind.Solution? && s.phase.advances == 0 ==>
      s.found && Sound(h, s) && NonceOf(s.input, s.job.offset) == s.phase.event.nonce
  {
    ReachableOk(h, s);
    AnnouncedIsStored(h, s, s.phase.event);
  }

  /** The sequence number changes by one at a time, and never by another thread while the handler runs. */
  lemma OnlyTheHandlerAdvances(h: HashFn, s: State, a: Action)
    requires Reachable(h, s) && Enabled(s, a)
    ensures Apply(h, s, a).sequence == s.sequence
         || (Apply(h, s, a).sequence == s.sequence + 1 && a.Step? && s.actors[a.a].Advance?
             && (HandlerHolds(s.phase) ==> a.a == 0))
  {
    ReachableOk(h, s);
    match a {
      case Step(b) =>
        assert ActorOk(s, b) && ActorOk(s, 0);
        if !s.actors[b].Advance? {
          ActorStepKeepsRest(s, b);
        }
      case Work(i) => WorkerStepIsLocal(h, s, i);
      case Listen => EventStepIsLocal(s);
      case _ =>
    }
  }

  lemma ReachableStep(h: HashFn, s: State, a: Action)
    requires Reachable(h, s) && Enabled(s, a)
    ensures Reachable(h, Apply(h, s, a))
  {
    var callers: nat, request: Request, schedule: seq<Action> :|
      WellFormed(request.job) && s == After(h, Initial(callers, request), schedule);
    assert (schedule + [a])[..|schedule|] == schedule;
    assert Apply(h, s, a) == After(h, Initial(callers, request), schedule + [a]);
  }

  lemma {:induction false} ReachableOn(h: HashFn, s: State, more: seq<Action>)
    requires Reachable(h, s)
    ensures Reachable(h, After(h, s, more)) && After(h, s, more).sequence >= s.sequence
  {
    if more != [] {
      var k := |more| - 1;
      ReachableOn(h, s, more[..k]);
      var before := After(h, s, more[..k]);
      if Enabled(before, more[k]) {
        ReachableStep(h, before, more[k]);
        OnlyTheHandlerAdvances(h, before, more[k]);
      }
    }
  }

  /** No step but the event thread's own enters the handler. */
  lemma OnlyListenEnters(h: HashFn, s: State, a: Action)
    requires Enabled(s, a) && !s.phase.Handling? && !a.Listen?
    ensures !Apply(h, s, a).phase.Handling?
  {
    match a {
      case Step(b) =>
        if !s.actors[b].Advance? {
          ActorStepKeepsRest(s, b);
        }
      case Work(i) => WorkerStepIsLocal(h, s, i);
      case _ =>
    }
  }

  lemma HandlerEntry(h: HashFn, s: State, a: Action)
    requires Enabled(s, a) && !s.phase.Handling? && Apply(h, s, a).phase.Handling?
    ensures a.Listen? && s.phase.Rechecking?
    ensures Apply(h, s, a).phase.event.sequence == s.sequence == Apply(h, s, a).sequence
  {
    if !a.Listen? {
      OnlyListenEnters(h, s, a);
    }
  }

  /** Whatever happens after a state, the handler is never entered with an event of an earlier sequence
      number than that state's; once `cancel` has taken a new number, the old job is silent. */
  lemma NoStaleDelivery(h: HashFn, s: State, more: seq<Action>, a: Action)
    requires Reachable(h, s) && Enabled(After(h, s, more), a)
    requires !After(h, s, more).phase.Handling? && Apply(h, After(h, s, more), a).phase.Handling?
    ensures var delivered := Apply(h, After(h, s, more), a);
            delivered.phase.event.sequence == delivered.sequence >= s.sequence
  {
    ReachableOn(h, s, more);
    HandlerEntry(h, After(h, s, more), a);
  }

  /** The mutex of the events is recursive for the handler's sake: whenever its thread is in no call, it may begin
      one, and while it runs, no call of `cancel` or `start` that it makes waits for that mutex. */
  lemma HandlerMayCall(h: HashFn, s: State, request: Request)
    requires Reachable(h, s) && s.phase.Handling?
    ensures |s.actors| > 0
    ensures s.actors[0].Idle? ==> Enabled(s, BeginCancel(0)) && Enabled(s, BeginRead(0))
    ensures s.actors[0].Idle? && s.starter == None && WellFormed(request.job) ==> Enabled(s, BeginStart(0, request))
    ensures s.actors[0].WantEvent? ==> Enabled(s, Step(0))
  {
    ReachableOk(h, s);
    assert ActorOk(s, 0);
  }

  /** An accessor that finds the solution mutex free gets it, and leaves everything as it was. */
  lemma AccessorAlone(h: HashFn, s: State, a: nat)
    requires Enabled(s, BeginRead(a)) && s.solution == None && s.reader == None
    ensures var begun := Apply(h, s, BeginRead(a));
            && Enabled(begun, Read(a))
            && var reading := Apply(h, begun, Read(a));
            && reading == s.(actors := s.actors[a := Reading], reader := Some(a))
            && Enabled(reading, Read(a)) && Apply(h, reading, Read(a)) == s
  {
    assert s.actors[a := WantRead][a := Reading] == s.actors[a := Reading];
    assert s.actors[a := Reading][a := Idle] == s.actors;
  }

  // ---------------------------------------------------------------------------------------------
  // Cancelling
  // ---------------------------------------------------------------------------------------------

  /** When `cancel` has cleared the threads and still holds its mutexes, nothing runs. */
  lemma CancelStopsEverything(h: HashFn, s: State, a: nat)
    requires Reachable(h, s) && a < |s.actors| && (s.actors[a].Advance? || s.actors[a].LeaveRunning?)
    ensures s.workers == [] && s.count == 0 && s.solution == None
    ensures s.actors[a].LeaveRunning? && s.starter == Some(a) ==> s.jobSequence < s.sequence
  {
    ReachableOk(h, s);
    assert ActorOk(s, a);
  }

  /** No workers, and no thread inside `start`. */
  predicate AtRest(s: State) {
    s.workers == [] && s.starter == None
  }

  predicate SameRest(s: State, s': State) {
    && AtRest(s') && s'.count == 0 && s'.found == s.found && s'.input == s.input && s'.hash == s.hash
    && s'.job == s.job && s'.jobSequence == s.jobSequence && s'.created == s.created
  }

  lemma RestCancel(s: State, a: nat)
    requires a < |s.actors| && AtRest(s) && s.count == 0
    ensures OnMutex(s.actors[a]) ==> SameRest(s, MutexStep(s, a))
    ensures Stopping(s.actors[a]) ==> SameRest(s, StopStep(s, a))
  {
  }

  lemma RestActor(s: State, a: nat)
    requires a < |s.actors| && ActorOk(s, a) && AtRest(s) && s.count == 0 && Calling(s.actors[a])
    ensures SameRest(s, ActorStep(s, a))
  {
    RestCancel(s, a);
  }

  /** Actions that touch nothing but a program counter, the handler's return and the reader. */
  predicate Aside(a: Action) {
    a.BeginCancel? || a.BeginRead? || a.Read? || a.Return?
  }

  lemma AsideStep(h: HashFn, s: State, a: Action)
    requires Enabled(s, a) && Aside(a)
    ensures var s' := Apply(h, s, a);
            s' == s.(actors := s'.actors, phase := s'.phase, reader := s'.reader) && |s'.actors| == |s.actors|
  {
  }

  lemma AsideKeepsReset(h: HashFn, s: State, a: Action)
    requires Inv(h, s) && Enabled(s, a) && Aside(a)
    ensures var s' := Apply(h, s, a);
            StarterPc(s') == StarterPc(s) && s'.starter == s.starter
            && s' == s.(actors := s'.actors, phase := s'.phase, reader := s'.reader)
  {
    if !a.Return? {
      assert ActorOk(s, a.a);
    }
  }

  lemma RestStep(h: HashFn, s: State, a: Action)
    requires Inv(h, s) && AtRest(s) && Enabled(s, a) && !a.BeginStart?
    ensures SameRest(s, Apply(h, s, a))
  {
    if Aside(a) {
      AsideStep(h, s, a);
    } else if a.Listen? {
      EventStepIsLocal(s);
    } else {
      assert ActorOk(s, a.a);
      RestActor(s, a.a);
    }
  }

  /** Quiescence: until the next `start`, no worker runs, the solution is frozen and no event is created. */
  lemma {:induction false} QuietUntilStart(h: HashFn, s: State, more: seq<Action>)
    requires Reachable(h, s) && AtRest(s)
    requires forall k :: 0 <= k < |more| ==> !more[k].BeginStart?
    ensures SameRest(s, After(h, s, more))
  {
    ReachableOk(h, s);
    if more != [] {
      var k := |more| - 1;
      QuietUntilStart(h, s, more[..k]);
      ReachableOn(h, s, more[..k]);
      var before := After(h, s, more[..k]);
      ReachableOk(h, before);
      if Enabled(before, more[k]) {
        RestStep(h, before, more[k]);
      }
    }
  }

  /** After `cancel`, if no `start` is in progress when it lets go of its mutexes: nothing runs and
      nothing is published until a new `start`. */
  lemma SilenceAfterCancel(h: HashFn, s: State, a: nat, more: seq<Action>)
    requires Reachable(h, s) && a < |s.actors| && s.actors[a].LeaveRunning? && s.starter == None
    requires forall k :: 0 <= k < |more| ==> !more[k].BeginStart?
    ensures SameRest(s, After(h, s, more))
  {
    CancelStopsEverything(h, s, a);
    QuietUntilStart(h, s, more);
  }

  // ---------------------------------------------------------------------------------------------
  // A published solution stays
  // ---------------------------------------------------------------------------------------------

  /** The action lets a `start` replace the job. */
  predicate ReplacesJob(s: State, a: Action) {
    a.Step? && Enabled(s, a) && s.actors[a.a].SetJob?
  }

  /** No `start` replaces the job in the schedule. */
  predicate NoNewJob(h: HashFn, s: State, more: seq<Action>) {
    more != [] ==>
      NoNewJob(h, s, more[..|more| - 1]) && !ReplacesJob(After(h, s, more[..|more| - 1]), more[|more| - 1])
  }

  /** A solution is stored and announced, and belongs to the job that is set. A `start` may be at work: the
      one of this job, while it creates workers, or the next one, until it replaces the job. */
  predicate Published(s: State) {
    s.found && !Publishing(s) && !InReset(s)
  }

  predicate SamePublished(s: State, s': State) {
    Published(s') && s'.input == s.input && s'.hash == s.hash && s'.job == s.job
  }

  lemma QuietKeepsPublished(s: State, s': State)
    requires Quiet(s, s') && Published(s)
    ensures SamePublished(s, s')
  {
  }

  lemma WorkerKeepsPublished(h: HashFn, s: State, i: nat)
    requires i < |s.workers| && WorkerReady(s, i) && WorkerLocks(s, i) && Stored(s, i) && QueueShaped(s)
    requires Published(s)
    ensures SamePublished(s, WorkerStep(h, s, i))
  {
    WorkerStepIsLocal(h, s, i);
    if Searching(s.workers[i].pc) {
      SearchKeepsSolution(h, s, i);
    } else if TimingOut(s.workers[i].pc) {
      TimeoutKeepsSolution(s, i);
    } else {
      SolutionKeepsPublished(s, i);
    }
  }

  lemma SolutionKeepsPublished(s: State, i: nat)
    requires i < |s.workers| && WorkerReady(s, i) && WorkerLocks(s, i) && Stored(s, i)
    requires !Searching(s.workers[i].pc) && !TimingOut(s.workers[i].pc)
    requires Published(s)
    ensures SamePublished(s, SolutionStep(s, i))
  {
  }

  lemma ClearKeepsPublished(s: State, a: nat)
    requires Shapes(s) && WorkersLocks(s) && a < |s.actors| && ActorOk(s, a) && s.actors[a].Clear?
    requires Published(s)
    ensures SamePublished(s, StopStep(s, a))
  {
    NoHolderAmongDone(s);
  }

  lemma SpawnKeepsPublished(h: HashFn, s: State, a: nat)
    requires Shapes(s) && a < |s.actors| && ActorOk(s, a) && s.actors[a].Spawning? && StarterOk(s) && Published(s)
    ensures SamePublished(s, SpawnStep(s, a))
  {
    SpawnChangesLittle(s, a);
    if SpawnStep(s, a).workers != s.workers {
      NewWorkerOk(h, s, SpawnStep(s, a));
    }
  }

  lemma ActorKeepsPublished(h: HashFn, s: State, a: nat)
    requires Inv(h, s) && Enabled(s, Step(a)) && Published(s) && !s.actors[a].SetJob?
    ensures SamePublished(s, ActorStep(s, a))
  {
    assert ActorOk(s, a);
    if OnMutex(s.actors[a]) {
      MutexIsQuiet(s, a);
      QuietKeepsPublished(s, MutexStep(s, a));
    } else if s.actors[a].Clear? {
      ClearKeepsPublished(s, a);
    } else if Stopping(s.actors[a]) {
      StopIsQuiet(s, a);
      QuietKeepsPublished(s, StopStep(s, a));
    } else if OnGate(s.actors[a]) {
      GateIsQuiet(s, a);
      QuietKeepsPublished(s, GateStep(s, a));
    } else {
      assert s.actors[a].Spawning?;
      SpawnKeepsPublished(h, s, a);
    }
  }

  lemma BeginStartIsQuiet(h: HashFn, s: State, a: Action)
    requires Inv(h, s) && a.BeginStart? && Enabled(s, a)
    ensures Quiet(s, Begun(s, a))
  {
  }

  lemma PublishedStep(h: HashFn, s: State, a: Action)
    requires Inv(h, s) && Published(s) && Enabled(s, a) && !ReplacesJob(s, a)
    ensures SamePublished(s, Apply(h, s, a))
  {
    if Aside(a) {
      assert a.Read? ==> ActorOk(s, a.a);
      assert a.BeginCancel? || a.BeginRead? ==> ActorOk(s, a.a);
      AsideKeepsReset(h, s, a);
    } else if a.BeginStart? {
      BeginStartIsQuiet(h, s, a);
    } else if a.Listen? {
      EventStepIsLocal(s);
    } else if a.Step? {
      ActorKeepsPublished(h, s, a.a);
    } else {
      assert WorkerLocks(s, a.i) && WorkerOk(h, s, a.i) && Stored(s, a.i);
      if a.Work? {
        WorkerKeepsPublished(h, s, a.i);
      }
    }
  }

  /** A published solution stays what it is, whatever workers, cancelling threads and accessors do, and also
      while `start` goes on creating workers, until a next `start` replaces the job. */
  lemma {:induction false} SolutionStays(h: HashFn, s: State, more: seq<Action>)
    requires Reachable(h, s) && Published(s) && NoNewJob(h, s, more)
    ensures SamePublished(s, After(h, s, more))
  {
    if more != [] {
      var k := |more| - 1;
      SolutionStays(h, s, more[..k]);
      ReachableOn(h, s, more[..k]);
      var before := After(h, s, more[..k]);
      ReachableOk(h, before);
      if Enabled(before, more[k]) {
        PublishedStep(h, before, more[k]);
      }
    }
  }

  /** Whether the `start` in progress, if any, has replaced the job already. */
  predicate JobIsSet(s: State) {
    s.starter.Some? ==> Resetting(StarterPc(s)) || MayGrow(s) || StarterPc(s).LeaveStart?
  }

  /** The thread in `start` moves on. */
  lemma StarterKeepsJobSet(s: State, a: nat)
    requires a < |s.actors| && s.starter == Some(a) && JobIsSet(s)
    ensures Calling(s.actors[a]) && !s.actors[a].SetJob? && JobIsSet(ActorStep(s, a))
  {
  }

  /** Another thread, which is in `cancel`, moves on. */
  lemma CancelKeepsJobSet(s: State, a: nat)
    requires a < |s.actors| && ActorRole(s, a) && s.starter != Some(a) && Calling(s.actors[a]) && JobIsSet(s)
    ensures !s.actors[a].SetJob? && JobIsSet(ActorStep(s, a))
  {
  }

  lemma JobStaysSet(h: HashFn, s: State, a: Action)
    requires Inv(h, s) && JobIsSet(s) && Enabled(s, a) && !a.BeginStart?
    ensures !ReplacesJob(s, a) && JobIsSet(Apply(h, s, a))
  {
    if a.Step? {
      assert ActorOk(s, a.a);
      if s.starter == Some(a.a) {
        StarterKeepsJobSet(s, a.a);
      } else {
        CancelKeepsJobSet(s, a.a);
      }
    } else if Aside(a) {
      AsideKeepsReset(h, s, a);
    } else if a.Listen? {
      EventStepIsLocal(s);
    } else if a.Work? {
      WorkerStepIsLocal(h, s, a.i);
    }
  }

  /** Until a next `start` is called, none replaces the job. */
  lemma {:induction false} NoCallNoNewJob(h: HashFn, s: State, more: seq<Action>)
    requires Reachable(h, s) && JobIsSet(s)
    requires forall k :: 0 <= k < |more| ==> !more[k].BeginStart?
    ensures NoNewJob(h, s, more) && JobIsSet(After(h, s, more))
  {
    if more != [] {
      var k := |more| - 1;
      NoCallNoNewJob(h, s, more[..k]);
      ReachableOn(h, s, more[..k]);
      var before := After(h, s, more[..k]);
      ReachableOk(h, before);
      if Enabled(before, more[k]) {
        JobStaysSet(h, before, more[k]);
      }
    }
  }

  // ---------------------------------------------------------------------------------------------
  // Nonces
  // ---------------------------------------------------------------------------------------------

  /** A worker hashes the job's input with the nonce its index, the stride and its tries give. */
  lemma WorkerHashesItsNonce(h: HashFn, s: State, i: nat)
    requires Reachable(h, s) && i < |s.workers| && Hashed(s.workers[i].pc)
    ensures var w := s.workers[i];
            && WellFormed(s.job)
            && w.nonce == NthNonce(i, Stride(s.threads), w.tries)
            && w.hash == HashAt(h, s.job, w.nonce)
  {
    ReachableOk(h, s);
    assert WorkerOk(h, s, i);
  }

  // ---------------------------------------------------------------------------------------------
  // Progress
  // ---------------------------------------------------------------------------------------------

  /** No deadlock: whenever a thread has something to do, in or out of the handler, some thread can take
      its next step. */
  lemma NeverDeadlocked(h: HashFn, s: State, x: Party) returns (y: Party)
    requires Reachable(h, s) && Exists(s, x) && Active(s, x)
    ensures Exists(s, y) && Active(s, y) && Enabled(s, NextOf(s, y))
  {
    ReachableOk(h, s);
    forall i | 0 <= i < |s.workers| && s.workers[i].pc.WriteNonce?
      ensures HasRoom(s.workers[i].buffer, s.job.offset)
    {
      assert WorkerOk(h, s, i);
    }
    if x.Actor? {
      assert ActorOk(s, x.a);
    } else {
      assert WorkerLocks(s, x.i);
    }
    y := SomeoneCanStep(s, x);
  }

  /** The steps a worker has left once the stop flag is up or a solution is found. */
  function StepsLeft(pc: WorkerPc, found: bool): nat {
    match pc
    case Done => 0
    case Exiting => 1
    case StopAll => 2
    case TestStop => 3
    case PushTimeout => 3
    case QueueTimeout => 4
    case Born => 4
    case NextNonce => 4
    case LeaveSolution => 5
    case PushSolution => 6
    case QueueSolution => 7
    case SetHash => 8
    case SetInput => 9
    case SetFound => 10
    case CheckFound => 11
    case WantSolution => 12
    case Compare => 13
    case CheckDeadline => 14
    case Hashing => 15
    case WriteNonce => 16
    case TestFound => if found then 2 else 17
  }

  function WorkLeft(workers: seq<Worker>, found: bool): nat {
    if workers == [] then 0
    else WorkLeft(workers[..|workers| - 1], found) + StepsLeft(workers[|workers| - 1].pc, found)
  }

  lemma {:induction false} WorkMoves(workers: seq<Worker>, found: bool, i: nat, w: Worker)
    requires i < |workers|
    ensures WorkLeft(workers[i := w], found) + StepsLeft(workers[i].pc, found)
         == WorkLeft(workers, found) + StepsLeft(w.pc, found)
  {
    var n := |workers| - 1;
    if i < n {
      WorkMoves(workers[..n], found, i, w);
      assert workers[i := w][..n] == workers[..n][i := w];
    } else {
      assert workers[i := w][..n] == workers[..n];
    }
  }

  /** A found solution only shortens the way of the others. */
  lemma {:induction false} FoundShortens(workers: seq<Worker>, found: bool)
    ensures WorkLeft(workers, true) <= WorkLeft(workers, found) <= 17 * |workers|
  {
    if workers != [] {
      FoundShortens(workers[..|workers| - 1], found);
    }
  }

  predicate Halted(s: State) {
    s.stop || s.found
  }

  lemma SearchUsesUpWork(h: HashFn, s: State, i: nat)
    requires i < |s.workers| && Searching(s.workers[i].pc) && WorkerReady(s, i) && Halted(s)
    ensures |SearchStep(h, s, i).workers| == |s.workers|
    ensures StepsLeft(SearchStep(h, s, i).workers[i].pc, s.found) < StepsLeft(s.workers[i].pc, s.found)
  {
  }

  lemma TimeoutUsesUpWork(s: State, i: nat)
    requires i < |s.workers| && TimingOut(s.workers[i].pc)
    ensures |TimeoutStep(s, i).workers| == |s.workers|
    ensures StepsLeft(TimeoutStep(s, i).workers[i].pc, s.found) < StepsLeft(s.workers[i].pc, s.found)
  {
  }

  lemma SolutionUsesUpWork(s: State, i: nat)
    requires i < |s.workers| && Publishes(s.workers[i].pc)
    ensures |SolutionStep(s, i).workers| == |s.workers|
    ensures StepsLeft(SolutionStep(s, i).workers[i].pc, s.found) < StepsLeft(s.workers[i].pc, s.found)
  {
    SolutionMovesOn(s, i);
    match s.workers[i].pc {
      case CheckFound => assert !SolutionStep(s, i).workers[i].pc.CheckFound?;
      case LeaveSolution => assert SolutionStep(s, i).workers[i].pc.NextNonce?;
      case _ =>
    }
  }

  predicate IsWork(a: Action) {
    a.Work? || a.Expire?
  }

  lemma WorkUsesUpWork(h: HashFn, s: State, a: Action)
    requires Enabled(s, a) && IsWork(a) && Halted(s)
    ensures var s' := Apply(h, s, a);
            Halted(s') && s'.starter == s.starter && WorkLeft(s'.workers, s'.found) < WorkLeft(s.workers, s.found)
  {
    var s' := Apply(h, s, a);
    if a.Work? {
      WorkerStepIsLocal(h, s, a.i);
      if Searching(s.workers[a.i].pc) {
        SearchUsesUpWork(h, s, a.i);
      } else if TimingOut(s.workers[a.i].pc) {
        TimeoutUsesUpWork(s, a.i);
      } else {
        SolutionUsesUpWork(s, a.i);
      }
    }
    WorkMoves(s.workers, s.found, a.i, s'.workers[a.i]);
    FoundShortens(s'.workers, s.found);
  }

  /** The workers' steps in a schedule. */
  function WorkDone(h: HashFn, s: State, more: seq<Action>): nat {
    if more == [] then 0
    else
      var k := |more| - 1;
      WorkDone(h, s, more[..k]) + (if Enabled(After(h, s, more[..k]), more[k]) && IsWork(more[k]) then 1 else 0)
  }

  predicate JoiningIn(s: State, a: nat) {
    a < |s.actors| && s.actors[a].Joining?
  }

  /** Nobody else creates or removes workers while a thread joins them. */
  lemma OthersLeaveWorkers(h: HashFn, s: State, a: nat, b: Action)
    requires Inv(h, s) && JoiningIn(s, a) && Enabled(s, b) && !IsWork(b)
    ensures Apply(h, s, b).workers == s.workers
    ensures s.workers == [] || Apply(h, s, b).found == s.found
  {
    if b.Step? {
      assert ActorOk(s, a) && ActorOk(s, b.a);
      if b.a != a {
        RunningIsExclusive(s, a, b.a);
      }
      NoSpawnNoClear(s, b.a);
    } else if b.Listen? {
      EventStepIsLocal(s);
    }
  }

  lemma NoSpawnNoClear(s: State, a: nat)
    requires a < |s.actors| && Calling(s.actors[a]) && !s.actors[a].Clear? && !s.actors[a].Spawning?
    requires ActorRole(s, a) && StarterOk(s)
    ensures ActorStep(s, a).workers == s.workers
    ensures s.workers == [] || ActorStep(s, a).found == s.found
  {
  }

  /** Whether thread a stays in the joining loop of `cancel` during the whole schedule. */
  predicate StaysJoining(h: HashFn, s: State, more: seq<Action>, a: nat) {
    JoiningIn(After(h, s, more), a) && (more != [] ==> StaysJoining(h, s, more[..|more| - 1], a))
  }

  lemma JoinStep(h: HashFn, s: State, a: nat, b: Action)
    requires Inv(h, s) && JoiningIn(s, a) && Enabled(s, b)
    ensures var s' := Apply(h, s, b);
            WorkLeft(s'.workers, s'.found) + (if IsWork(b) then 1 else 0) <= WorkLeft(s.workers, s.found)
  {
    if IsWork(b) {
      assert StopOk(s, a);
      WorkUsesUpWork(h, s, b);
    } else {
      OthersLeaveWorkers(h, s, a, b);
    }
  }

  /** `cancel` waits for a bounded amount of work: while it joins, no schedule lets the workers take more
      steps than they had left when it began, at most 17 for each. */
  lemma {:induction false} JoinsWaitForBoundedWork(h: HashFn, s: State, more: seq<Action>, a: nat)
    requires Reachable(h, s) && StaysJoining(h, s, more, a)
    ensures var t := After(h, s, more);
            WorkDone(h, s, more) + WorkLeft(t.workers, t.found) <= WorkLeft(s.workers, s.found) <= 17 * |s.workers|
  {
    FoundShortens(s.workers, s.found);
    if more != [] {
      var k := |more| - 1;
      JoinsWaitForBoundedWork(h, s, more[..k], a);
      ReachableOn(h, s, more[..k]);
      var before := After(h, s, more[..k]);
      ReachableOk(h, before);
      assert StaysJoining(h, s, more[..k], a);
      if Enabled(before, more[k]) {
        JoinStep(h, before, a, more[k]);
      }
    }
  }

  /** The workers that `start` has still to create. */
  function Unspawned(s: State): nat {
    var pc := StarterPc(s);
    if pc.WantSpawn? then s.threads
    else if pc.Spawning? && pc.next < s.threads then s.threads - pc.next
    else 0
  }

  /** The steps that all workers of the job have left, including those still to be created: a worker born
      after the halt takes at most four. */
  function JobLeft(s: State): nat {
    WorkLeft(s.workers, s.found) + 4 * Unspawned(s)
  }

  lemma QuietKeepsHalt(s: State, s': State)
    requires Quiet(s, s') && Halted(s) && Unspawned(s') <= Unspawned(s)
    ensures Halted(s') && JobLeft(s') <= JobLeft(s)
  {
  }

  lemma MutexKeepsHalt(s: State, a: nat)
    requires Shapes(s) && a < |s.actors| && ActorOk(s, a) && OnMutex(s.actors[a]) && Halted(s)
    ensures Halted(MutexStep(s, a)) && JobLeft(MutexStep(s, a)) <= JobLeft(s)
  {
    MutexIsQuiet(s, a);
    QuietKeepsHalt(s, MutexStep(s, a));
  }

  lemma StopKeepsHalt(s: State, a: nat)
    requires Shapes(s) && a < |s.actors| && ActorOk(s, a) && Stopping(s.actors[a]) && Halted(s)
    ensures Halted(StopStep(s, a)) && JobLeft(StopStep(s, a)) <= JobLeft(s)
  {
  }

  lemma GateKeepsHalt(s: State, a: nat)
    requires Shapes(s) && a < |s.actors| && ActorOk(s, a) && OnGate(s.actors[a]) && StarterOk(s) && Halted(s)
    ensures Halted(GateStep(s, a)) && JobLeft(GateStep(s, a)) <= JobLeft(s)
  {
    GateIsQuiet(s, a);
    QuietKeepsHalt(s, GateStep(s, a));
  }

  lemma SpawnKeepsHalt(s: State, a: nat)
    requires Shapes(s) && a < |s.actors| && ActorOk(s, a) && s.actors[a].Spawning? && StarterOk(s) && Halted(s)
    ensures Halted(SpawnStep(s, a)) && JobLeft(SpawnStep(s, a)) <= JobLeft(s)
  {
    var s' := SpawnStep(s, a);
    SpawnChangesLittle(s, a);
    if s'.workers != s.workers {
      assert s'.workers[..|s.workers|] == s.workers;
    }
  }

  lemma ActorKeepsHalt(h: HashFn, s: State, a: nat)
    requires Inv(h, s) && Enabled(s, Step(a)) && Halted(s) && !InReset(s) && !s.actors[a].SetJob?
    ensures Halted(ActorStep(s, a)) && JobLeft(ActorStep(s, a)) <= JobLeft(s) && !InReset(ActorStep(s, a))
  {
    assert ActorOk(s, a);
    if OnMutex(s.actors[a]) {
      MutexKeepsHalt(s, a);
      MutexIsQuiet(s, a);
    } else if Stopping(s.actors[a]) {
      StopKeepsHalt(s, a);
      StopLeavesReset(s, a);
    } else if OnGate(s.actors[a]) {
      GateKeepsHalt(s, a);
      GateIsQuiet(s, a);
    } else {
      assert s.actors[a].Spawning?;
      SpawnKeepsHalt(s, a);
      SpawnChangesLittle(s, a);
    }
  }

  lemma StopLeavesReset(s: State, a: nat)
    requires a < |s.actors| && Stopping(s.actors[a])
    ensures InReset(StopStep(s, a)) == InReset(s)
  {
  }

  /** A step of anybody after the job has been halted. */
  lemma HaltedStep(h: HashFn, s: State, b: Action)
    requires Inv(h, s) && Halted(s) && !InReset(s) && Enabled(s, b) && !ReplacesJob(s, b)
    ensures var s' := Apply(h, s, b);
            Halted(s') && !InReset(s') && JobLeft(s') + (if IsWork(b) then 1 else 0) <= JobLeft(s)
  {
    if IsWork(b) {
      WorkUsesUpWork(h, s, b);
      if b.Work? {
        WorkerStepIsLocal(h, s, b.i);
      }
    } else if b.Step? {
      ActorKeepsHalt(h, s, b.a);
    } else if b.Listen? {
      EventStepIsLocal(s);
    } else if b.BeginStart? {
      BeginStartIsQuiet(h, s, b);
      QuietKeepsHalt(s, Begun(s, b));
    } else {
      AsideKeepsReset(h, s, b);
    }
  }

  /** A timeout, a cancellation or a solution ends the search, also when it comes while `start` is still
      creating workers: from then until a next `start` replaces the job, in every schedule, the workers
      there are take at most 17 further steps each and those still to be created at most four. */
  lemma {:induction false} HaltEndsTheSearch(h: HashFn, s: State, more: seq<Action>)
    requires Reachable(h, s) && Halted(s) && !InReset(s) && NoNewJob(h, s, more)
    ensures var t := After(h, s, more);
            && Halted(t) && !InReset(t)
            && WorkDone(h, s, more) + JobLeft(t) <= JobLeft(s) <= 17 * |s.workers| + 4 * Unspawned(s)
  {
    FoundShortens(s.workers, s.found);
    if more != [] {
      var k := |more| - 1;
      HaltEndsTheSearch(h, s, more[..k]);
      ReachableOn(h, s, more[..k]);
      var before := After(h, s, more[..k]);
      ReachableOk(h, before);
      if Enabled(before, more[k]) {
        HaltedStep(h, before, more[k]);
      }
    }
  }
}
