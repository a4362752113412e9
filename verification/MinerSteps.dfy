/** The mining engine of src/qrandomx/qrxminer.cpp as the atomic steps of its threads.

    Actor 0 is the event thread and the other actors are threads that call `start`, `cancel` and the
    solution accessors; actor 0 may call them too, from inside `handleEvent`. The workers of a job are
    further threads. Each access to a shared field is one step. At most one thread at a time is inside
    `start`. The fields `starter` and `request` record which one; `created` and a worker's `tries` are
    history, like the counter of `Handling`. The owner of the solution mutex is the worker `solution` or
    the actor `reader`. */
module MinerSteps {
  import opened Basics
  import opened NonceSearch

  datatype EventKind = Solution | Timeout

  datatype Event = Event(kind: EventKind, sequence: nat, nonce: Uint32)

  /** A recursive mutex. */
  datatype Lock = Lock(owner: Option<nat>, depth: nat)

  /** The arguments of `start`, and the number of hardware threads that replaces a thread count of 0. */
  datatype Request = Request(job: Job, threadCount: Uint32, hardware: Uint32)

  /** Where an actor is in `cancel` (lines 251-262) and then, if it is in `start`, in lines 163-241; or in
      an accessor of the solution (lines 79-117). */
  datatype Pc =
    | Idle
    | WantEvent | WantRunning | RaiseStop | Joining(next: nat) | Clear | Advance | LeaveRunning | LeaveEvent
    | SetJob | LowerStop | ResetFound | ReadSequence | WantSpawn | Spawning(next: nat) | LeaveStart
    | WantRead | Reading

  /** Where the event thread is (lines 274-315). `advances` counts the sequence numbers taken by calls
      that the handler itself made. */
  datatype Phase =
    | Listening | Popping
    | Popped(event: Event) | Entering(event: Event) | Rechecking(event: Event)
    | Handling(event: Event, advances: nat)
    | Leaving(event: Event, handled: bool)
    | Requeuing(event: Event) | Pushing(event: Event)

  /** Where a worker is (lines 184-238). */
  datatype WorkerPc =
    | Born | TestStop | TestFound | WriteNonce | Hashing | CheckDeadline
    | QueueTimeout | PushTimeout | StopAll
    | Compare | WantSolution | CheckFound | SetFound | SetInput | SetHash | QueueSolution | PushSolution
    | LeaveSolution | NextNonce | Exiting | Done

  datatype Worker = Worker(pc: WorkerPc, index: Uint32, sequence: nat, stride: Byte,
                           nonce: Uint32, tries: nat, buffer: Bytes, hash: Bytes)

  datatype QueueUser = EventThread | WorkerThread(i: nat)

  datatype State = State(event: Lock, running: Lock, solution: Option<nat>, reader: Option<nat>,
                         queueLock: Option<QueueUser>,
                         stop: bool, found: bool, input: Bytes, hash: Bytes,
                         sequence: nat, job: Job, threads: Uint32, jobSequence: nat, queue: seq<Event>,
                         actors: seq<Pc>, phase: Phase, workers: seq<Worker>, count: int,
                         starter: Option<nat>, request: Request,
                         created: seq<Event>)

  datatype Action =
    | Step(a: nat)
    | BeginCancel(a: nat)
    | BeginStart(a: nat, request: Request)
    | BeginRead(a: nat)
    | Read(a: nat)
    | Listen
    | Return(handled: bool)
    | Work(i: nat)
    | Expire(i: nat)

  const FREE: Lock := Lock(None, 0)

  /** The state after construction, with any number of threads that may call the miner. The job fields
      are read only after `start` has set them. */
  function Initial(callers: nat, request: Request): State {
    State(FREE, FREE, None, None, None, false, false, [], [], 0, request.job, 0, 0, [],
          seq(callers + 1, _ => Idle), Listening, [], 0, None, request, [])
  }

  function Threads(request: Request): Uint32 {
    if request.threadCount == 0 then request.hardware else request.threadCount
  }

  predicate Available(lock: Lock, a: nat) {
    lock.owner == None || lock.owner == Some(a)
  }

  function Taken(lock: Lock, a: nat): Lock {
    Lock(Some(a), lock.depth + 1)
  }

  function Dropped(lock: Lock): Lock {
    if lock.depth <= 1 then FREE else lock.(depth := lock.depth - 1)
  }

  predicate Enabled(s: State, a: Action) {
    match a
    case Step(a) => a < |s.actors| && ActorReady(s, a)
    case BeginCancel(a) => MayBegin(s, a)
    case BeginStart(a, request) => MayBegin(s, a) && s.starter == None && WellFormed(request.job)
    case BeginRead(a) => MayBegin(s, a)
    case Read(a) => a < |s.actors| && ReaderReady(s, a)
    case Listen => EventThreadReady(s)
    case Return(_) => s.phase.Handling? && |s.actors| > 0 && s.actors[0].Idle?
    case Work(i) => i < |s.workers| && WorkerReady(s, i)
    case Expire(i) => i < |s.workers| && s.workers[i].pc.CheckDeadline? && s.workers[i].index == 0
  }

  /** A thread may begin a call when it is in none; the event thread only from inside the handler. */
  predicate MayBegin(s: State, a: nat) {
    a < |s.actors| && s.actors[a].Idle? && (a == 0 ==> s.phase.Handling?)
  }

  predicate ActorReady(s: State, a: nat)
    requires a < |s.actors|
  {
    match s.actors[a]
    case Idle => false
    case WantRead => false
    case Reading => false
    case WantEvent => Available(s.event, a)
    case WantRunning => Available(s.running, a)
    case WantSpawn => Available(s.running, a)
    case Joining(k) => k < |s.workers| ==> s.workers[k].pc.Done?
    case _ => true
  }

  predicate InAccessor(pc: Pc) {
    pc.WantRead? || pc.Reading?
  }

  predicate ReaderReady(s: State, a: nat)
    requires a < |s.actors|
  {
    s.actors[a].Reading? || (s.actors[a].WantRead? && s.solution == None && s.reader == None)
  }

  predicate EventThreadReady(s: State) {
    match s.phase
    case Listening => s.queueLock == None && s.queue != []
    case Popping => s.queue != []
    case Entering(_) => Available(s.event, 0)
    case Handling(_, _) => false
    case Requeuing(_) => s.queueLock == None
    case _ => true
  }

  predicate WorkerReady(s: State, i: nat)
    requires i < |s.workers|
  {
    match s.workers[i].pc
    case Done => false
    case QueueTimeout => s.queueLock == None
    case QueueSolution => s.queueLock == None
    case WantSolution => s.solution == None && s.reader == None
    case WriteNonce => HasRoom(s.workers[i].buffer, s.job.offset)
    case _ => true
  }

  // ---------------------------------------------------------------------------------------------
  // start and cancel
  // ---------------------------------------------------------------------------------------------

  function Go(s: State, a: nat, pc: Pc): State
    requires a < |s.actors|
  {
    s.(actors := s.actors[a := pc])
  }

  /** The handler's own calls are counted while it runs. */
  function Advanced(phase: Phase, a: nat): Phase {
    if a == 0 && phase.Handling? then phase.(advances := phase.advances + 1) else phase
  }

  /** The steps of `cancel` on its two mutexes, in the order event mutex, running-threads mutex. */
  predicate OnMutex(pc: Pc) {
    pc.WantEvent? || pc.WantRunning? || pc.LeaveRunning? || pc.LeaveEvent?
  }

  function AfterMutex(s: State, a: nat): Pc
    requires a < |s.actors| && OnMutex(s.actors[a])
  {
    match s.actors[a]
    case WantEvent => WantRunning
    case WantRunning => RaiseStop
    case LeaveRunning => LeaveEvent
    case LeaveEvent => if s.starter == Some(a) then SetJob else Idle
  }

  function MutexStep(s: State, a: nat): State
    requires a < |s.actors| && OnMutex(s.actors[a])
  {
    var pc := s.actors[a];
    Go(s, a, AfterMutex(s, a)).(
      event := if pc.WantEvent? then Taken(s.event, a) else if pc.LeaveEvent? then Dropped(s.event) else s.event,
      running :=
        if pc.WantRunning? then Taken(s.running, a)
        else if pc.LeaveRunning? then Dropped(s.running)
        else s.running)
  }

  /** The steps of `cancel` under both mutexes. */
  predicate Stopping(pc: Pc) {
    pc.RaiseStop? || pc.Joining? || pc.Clear? || pc.Advance?
  }

  function StopStep(s: State, a: nat): State
    requires a < |s.actors| && Stopping(s.actors[a])
  {
    match s.actors[a]
    case RaiseStop => Go(s, a, Joining(0)).(stop := true)
    case Joining(k) => Go(s, a, if k < |s.workers| then Joining(k + 1) else Clear)
    case Clear => Go(s, a, Advance).(workers := [])
    case Advance => Go(s, a, LeaveRunning).(sequence := s.sequence + 1, phase := Advanced(s.phase, a))
  }

  /** The steps of `start` between its call of `cancel` and the running-threads mutex. */
  predicate Preparing(pc: Pc) {
    pc.SetJob? || pc.LowerStop? || pc.ResetFound? || pc.ReadSequence?
  }

  function PrepareStep(s: State, a: nat): State
    requires a < |s.actors| && Preparing(s.actors[a])
  {
    match s.actors[a]
    case SetJob => Go(s, a, LowerStop).(job := s.request.job, threads := Threads(s.request))
    case LowerStop => Go(s, a, ResetFound).(stop := false)
    case ResetFound => Go(s, a, ReadSequence).(found := false)
    case ReadSequence => Go(s, a, WantSpawn).(jobSequence := s.sequence)
  }

  /** The steps of `start` on the running-threads mutex. */
  predicate OnGate(pc: Pc) {
    pc.WantSpawn? || pc.LeaveStart?
  }

  function GateStep(s: State, a: nat): State
    requires a < |s.actors| && OnGate(s.actors[a])
  {
    match s.actors[a]
    case WantSpawn => Go(s, a, Spawning(0)).(running := Taken(s.running, a))
    case LeaveStart => Go(s, a, Idle).(running := Dropped(s.running), starter := None)
  }

  function NewWorker(s: State, k: Uint32): Worker {
    Worker(Born, k, s.jobSequence, Stride(s.threads), k, 0, [], [])
  }

  /** The loop of `start` that creates the workers. */
  function SpawnStep(s: State, a: nat): State
    requires a < |s.actors| && s.actors[a].Spawning?
  {
    var k := s.actors[a].next;
    if k < s.threads then Go(s, a, Spawning(k + 1)).(workers := s.workers + [NewWorker(s, k)])
    else Go(s, a, LeaveStart)
  }

  /** Inside `cancel` or `start`. */
  predicate Calling(pc: Pc) {
    !pc.Idle? && !InAccessor(pc)
  }

  function ActorStep(s: State, a: nat): State
    requires a < |s.actors| && Calling(s.actors[a])
  {
    var pc := s.actors[a];
    if OnMutex(pc) then MutexStep(s, a)
    else if Stopping(pc) then StopStep(s, a)
    else if Preparing(pc) then PrepareStep(s, a)
    else if OnGate(pc) then GateStep(s, a)
    else SpawnStep(s, a)
  }

  /** An accessor takes the solution mutex, reads, and lets go of it. */
  function ReadStep(s: State, a: nat): State
    requires a < |s.actors| && InAccessor(s.actors[a])
  {
    if s.actors[a].WantRead? then Go(s, a, Reading).(reader := Some(a)) else Go(s, a, Idle).(reader := None)
  }

  // ---------------------------------------------------------------------------------------------
  // The event thread
  // ---------------------------------------------------------------------------------------------

  function EventStep(s: State): State
    requires EventThreadReady(s)
  {
    match s.phase
    case Listening => s.(queueLock := Some(EventThread), phase := Popping)
    case Popping => s.(queueLock := None, queue := s.queue[1..], phase := Popped(s.queue[0]))
    case Popped(e) => s.(phase := if e.sequence == s.sequence then Entering(e) else Listening)
    case Entering(e) => s.(event := Taken(s.event, 0), phase := Rechecking(e))
    case Rechecking(e) => s.(phase := if e.sequence == s.sequence then Handling(e, 0) else Leaving(e, true))
    case Leaving(e, handled) =>
      s.(event := Dropped(s.event), phase := if handled then Listening else Requeuing(e))
    case Requeuing(e) => s.(queueLock := Some(EventThread), phase := Pushing(e))
    case Pushing(e) => s.(queueLock := None, queue := s.queue + [e], phase := Listening)
  }

  // ---------------------------------------------------------------------------------------------
  // The workers
  // ---------------------------------------------------------------------------------------------

  function Put(s: State, i: nat, w: Worker): State
    requires i < |s.workers|
  {
    s.(workers := s.workers[i := w])
  }

  function Queued(s: State, e: Event): State {
    s.(queueLock := None, queue := s.queue + [e], created := s.created + [e])
  }

  /** Searching: everything a worker does outside the solution mutex. */
  predicate Searching(pc: WorkerPc) {
    || pc.Born? || pc.TestStop? || pc.TestFound? || pc.WriteNonce? || pc.Hashing? || pc.CheckDeadline?
    || pc.Compare? || pc.NextNonce? || pc.Exiting?
  }

  predicate TimingOut(pc: WorkerPc) {
    pc.QueueTimeout? || pc.PushTimeout? || pc.StopAll?
  }

  function SearchStep(h: HashFn, s: State, i: nat): State
    requires i < |s.workers| && Searching(s.workers[i].pc) && WorkerReady(s, i)
  {
    var w := s.workers[i];
    match w.pc
    case Born => Put(s, i, w.(pc := TestStop, buffer := s.job.input)).(count := s.count + 1)
    case TestStop => Put(s, i, w.(pc := if s.stop then Exiting else TestFound))
    case TestFound => Put(s, i, w.(pc := if s.found then Exiting else WriteNonce))
    case WriteNonce => Put(s, i, w.(pc := Hashing, buffer := WithNonce(w.buffer, s.job.offset, w.nonce)))
    case Hashing =>
      Put(s, i, w.(pc := if w.index == 0 then CheckDeadline else Compare, hash := h(s.job.seedHash, w.buffer)))
    case CheckDeadline => Put(s, i, w.(pc := Compare))
    case Compare => Put(s, i, w.(pc := if Passes(w.hash, s.job.target) then WantSolution else NextNonce))
    case NextNonce => Put(s, i, w.(pc := TestStop, nonce := (w.nonce + w.stride) % TWO_32, tries := w.tries + 1))
    case Exiting => Put(s, i, w.(pc := Done)).(count := s.count - 1)
  }

  function TimeoutStep(s: State, i: nat): State
    requires i < |s.workers| && TimingOut(s.workers[i].pc)
  {
    var w := s.workers[i];
    match w.pc
    case QueueTimeout => Put(s, i, w.(pc := PushTimeout)).(queueLock := Some(WorkerThread(i)))
    case PushTimeout => Queued(Put(s, i, w.(pc := StopAll)), Event(Timeout, w.sequence, 0))
    case StopAll => Put(s, i, w.(pc := Exiting)).(stop := true)
  }

  /** Publishing: lines 226-232. */
  predicate Publishes(pc: WorkerPc) {
    !Searching(pc) && !TimingOut(pc) && !pc.Done?
  }

  function AfterPublishing(pc: WorkerPc, found: bool): WorkerPc
    requires Publishes(pc)
  {
    match pc
    case WantSolution => CheckFound
    case CheckFound => if found then LeaveSolution else SetFound
    case SetFound => SetInput
    case SetInput => SetHash
    case SetHash => QueueSolution
    case QueueSolution => PushSolution
    case PushSolution => LeaveSolution
    case LeaveSolution => NextNonce
  }

  function SolutionStep(s: State, i: nat): State
    requires i < |s.workers| && Publishes(s.workers[i].pc)
  {
    var w := s.workers[i];
    var news := if w.pc.PushSolution? then [Event(Solution, w.sequence, w.nonce)] else [];
    Put(s, i, w.(pc := AfterPublishing(w.pc, s.found))).(
      solution := if w.pc.WantSolution? then Some(i) else if w.pc.LeaveSolution? then None else s.solution,
      found := s.found || w.pc.SetFound?,
      input := if w.pc.SetInput? then w.buffer else s.input,
      hash := if w.pc.SetHash? then w.hash else s.hash,
      queueLock :=
        if w.pc.QueueSolution? then Some(WorkerThread(i))
        else if w.pc.PushSolution? then None
        else s.queueLock,
      queue := s.queue + news,
      created := s.created + news)
  }

  function WorkerStep(h: HashFn, s: State, i: nat): State
    requires i < |s.workers| && WorkerReady(s, i)
  {
    var pc := s.workers[i].pc;
    if Searching(pc) then SearchStep(h, s, i)
    else if TimingOut(pc) then TimeoutStep(s, i)
    else SolutionStep(s, i)
  }

  // ---------------------------------------------------------------------------------------------
  // Runs
  // ---------------------------------------------------------------------------------------------

  function Apply(h: HashFn, s: State, a: Action): State
    requires Enabled(s, a)
  {
    match a
    case Step(a) => ActorStep(s, a)
    case BeginCancel(a) => Go(s, a, WantEvent)
    case BeginStart(a, request) => Go(s, a, WantEvent).(starter := Some(a), request := request)
    case BeginRead(a) => Go(s, a, WantRead)
    case Read(a) => ReadStep(s, a)
    case Listen => EventStep(s)
    case Return(handled) => s.(phase := Leaving(s.phase.event, handled))
    case Work(i) => WorkerStep(h, s, i)
    case Expire(i) => Put(s, i, s.workers[i].(pc := QueueTimeout))
  }

  /** A schedule is a list of actions; an action that is not enabled when its turn comes does nothing. */
  function After(h: HashFn, s: State, schedule: seq<Action>): State {
    if schedule == [] then s
    else
      var before := After(h, s, schedule[..|schedule| - 1]);
      var a := schedule[|schedule| - 1];
      if Enabled(before, a) then Apply(h, before, a) else before
  }
}
