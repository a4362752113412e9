/** The single-thread proxy of src/qrandomx/threadedqrandomx.cpp as the atomic steps of any number of
    callers and one proxy thread, before the stop flag is raised.

    The fields `submitted`, `executed` and `returned` are history. A condition variable is modelled by
    the `notified` flag of the thread asleep on it; a thread may also wake up spuriously. */
module ProxySteps {
  import opened Basics
  import opened SeedEpochs
  import E = EngineSteps

  /** The three kinds of request the proxy thread knows. */
  datatype Params =
    | HashParams(mainHeight: Uint64, seedHeight: Uint64, seedHash: E.Seed, input: Bytes, isAlt: bool)
    | HeightParams(height: Uint64)
    | FreeParams

  datatype Output = HashOutput(hash: Bytes) | HeightOutput(seedHeight: Uint64) | NoOutput

  /** The result of calling the hash engine directly. */
  function Direct(h: HashFn, p: Params): Output {
    match p
    case HashParams(_, _, seedHash, input, _) => HashOutput(h(seedHash, input))
    case HeightParams(height) => HeightOutput(SeedHeight(height))
    case FreeParams => NoOutput
  }

  /** The result by kind: the hash of the input under the seed, the start of the epoch of the block 65 below,
      or nothing. */
  lemma DirectByKind(h: HashFn, p: Params)
    ensures p.HashParams? ==> Direct(h, p) == HashOutput(h(p.seedHash, p.input))
    ensures p.HeightParams? ==> Direct(h, p) == HeightOutput(if p.height < 65 then 0 else (p.height - 65) / 2048 * 2048)
    ensures p.FreeParams? ==> Direct(h, p) == NoOutput
  {
    if p.HeightParams? {
      SeedHeightByDivision(p.height);
    }
  }

  datatype Who = Proxy | Caller(c: nat)

  datatype Request = Request(params: Params, caller: nat, lock: Option<Who>, output: seq<Output>)

  datatype ProxyPc =
    | Asleep | WantQueue | CheckQueue | Drain | LeaveQueue
    | Run | WantOutput | PushOutput | NotifyCaller | LeaveOutput

  datatype ProxyThread = ProxyThread(pc: ProxyPc, batch: seq<nat>, next: nat, result: Output, notified: bool)

  datatype CallerPc =
    | Outside | EnterQueue | Push | NotifyProxy | ExitQueue
    | EnterOutput | CheckOutput | Waiting | ReadOutput

  datatype CallerThread = CallerThread(pc: CallerPc, req: nat, notified: bool)

  datatype Return = Return(caller: nat, req: nat, value: Output)

  datatype State = State(queueLock: Option<Who>, queue: seq<nat>, requests: seq<Request>,
                         proxy: ProxyThread, callers: seq<CallerThread>,
                         submitted: seq<nat>, executed: seq<nat>, returned: seq<Return>)

  datatype Action =
    | Step(who: Who)
    | Spurious(sleeper: Who)
    | Call(caller: nat, params: Params)

  function Initial(n: nat): State {
    State(None, [], [], ProxyThread(WantQueue, [], 0, NoOutput, false),
          seq(n, _ => CallerThread(Outside, 0, false)), [], [], [])
  }

  /** The request the proxy is working on. */
  predicate Handling(p: ProxyThread) {
    p.pc.WantOutput? || p.pc.PushOutput? || p.pc.NotifyCaller? || p.pc.LeaveOutput?
  }

  predicate ProxyReady(s: State) {
    && (Handling(s.proxy) || (s.proxy.pc.Run? && s.proxy.next < |s.proxy.batch|) ==>
          s.proxy.next < |s.proxy.batch| && s.proxy.batch[s.proxy.next] < |s.requests|
          && s.requests[s.proxy.batch[s.proxy.next]].caller < |s.callers|)
  }

  predicate CallerReady(s: State, c: nat) {
    && c < |s.callers|
    && (!s.callers[c].pc.Outside? ==> s.callers[c].req < |s.requests|)
    && (s.callers[c].pc.ReadOutput? ==> s.requests[s.callers[c].req].output != [])
  }

  function Current(p: ProxyThread): nat
    requires p.next < |p.batch|
  {
    p.batch[p.next]
  }

  predicate Enabled(s: State, a: Action) {
    match a
    case Step(Proxy) =>
      && ProxyReady(s)
      && (s.proxy.pc.Asleep? ==> s.proxy.notified)
      && (s.proxy.pc.WantQueue? ==> s.queueLock == None)
      && (s.proxy.pc.WantOutput? ==> s.requests[Current(s.proxy)].lock == None)
    case Step(Caller(c)) =>
      && CallerReady(s, c)
      && !s.callers[c].pc.Outside?
      && (s.callers[c].pc.Waiting? ==> s.callers[c].notified)
      && (s.callers[c].pc.EnterQueue? ==> s.queueLock == None)
      && (s.callers[c].pc.EnterOutput? ==> s.requests[s.callers[c].req].lock == None)
    case Spurious(Proxy) => s.proxy.pc.Asleep?
    case Spurious(Caller(c)) => c < |s.callers| && s.callers[c].pc.Waiting?
    case Call(c, params) => c < |s.callers| && s.callers[c].pc.Outside?
  }

  function WithRequest(s: State, r: nat, request: Request): State
    requires r < |s.requests|
  {
    s.(requests := s.requests[r := request])
  }

  function WithCaller(s: State, c: nat, caller: CallerThread): State
    requires c < |s.callers|
  {
    s.(callers := s.callers[c := caller])
  }

  /** Lines 74-112. */
  function ProxyStep(h: HashFn, s: State): State
    requires ProxyReady(s)
  {
    var p := s.proxy;
    match p.pc
    case Asleep => s.(proxy := p.(pc := WantQueue, notified := false))
    case WantQueue => s.(proxy := p.(pc := CheckQueue), queueLock := Some(Proxy))
    case CheckQueue =>
      if s.queue == [] then s.(proxy := p.(pc := Asleep, notified := false), queueLock := None)
      else s.(proxy := p.(pc := Drain))
    case Drain => s.(proxy := p.(pc := LeaveQueue, batch := s.queue, next := 0), queue := [])
    case LeaveQueue => s.(proxy := p.(pc := Run), queueLock := None)
    case Run =>
      if p.next < |p.batch| then
        s.(proxy := p.(pc := WantOutput, result := Direct(h, s.requests[Current(p)].params)),
           executed := s.executed + [Current(p)])
      else
        s.(proxy := p.(pc := WantQueue, batch := [], next := 0))
    case WantOutput =>
      WithRequest(s, Current(p), s.requests[Current(p)].(lock := Some(Proxy))).(proxy := p.(pc := PushOutput))
    case PushOutput =>
      var request := s.requests[Current(p)];
      WithRequest(s, Current(p), request.(output := request.output + [p.result])).(proxy := p.(pc := NotifyCaller))
    case NotifyCaller =>
      var c := s.requests[Current(p)].caller;
      var caller := s.callers[c];
      var woken := caller.pc.Waiting? && caller.req == Current(p);
      WithCaller(s, c, caller.(notified := caller.notified || woken)).(proxy := p.(pc := LeaveOutput))
    case LeaveOutput =>
      WithRequest(s, Current(p), s.requests[Current(p)].(lock := None)).(
        proxy := p.(pc := Run, next := p.next + 1))
  }

  /** Lines 40-44 and 50-72. */
  function CallerStep(s: State, c: nat): State
    requires CallerReady(s, c) && !s.callers[c].pc.Outside?
  {
    var th := s.callers[c];
    var request := s.requests[th.req];
    match th.pc
    case EnterQueue => WithCaller(s, c, th.(pc := Push)).(queueLock := Some(Caller(c)))
    case Push =>
      WithCaller(s, c, th.(pc := NotifyProxy)).(queue := s.queue + [th.req], submitted := s.submitted + [th.req])
    case NotifyProxy =>
      WithCaller(s, c, th.(pc := ExitQueue)).(
        proxy := s.proxy.(notified := s.proxy.notified || s.proxy.pc.Asleep?))
    case ExitQueue => WithCaller(s, c, th.(pc := EnterOutput)).(queueLock := None)
    case EnterOutput =>
      WithRequest(WithCaller(s, c, th.(pc := CheckOutput)), th.req, request.(lock := Some(Caller(c))))
    case CheckOutput =>
      if request.output == [] then
        WithRequest(WithCaller(s, c, th.(pc := Waiting, notified := false)), th.req, request.(lock := None))
      else
        WithCaller(s, c, th.(pc := ReadOutput))
    case Waiting => WithCaller(s, c, th.(pc := EnterOutput, notified := false))
    case ReadOutput =>
      WithRequest(WithCaller(s, c, th.(pc := Outside)), th.req, request.(lock := None)).(
        returned := s.returned + [Return(c, th.req, request.output[0])])
  }

  function Apply(h: HashFn, s: State, a: Action): State
    requires Enabled(s, a)
  {
    match a
    case Step(Proxy) => ProxyStep(h, s)
    case Step(Caller(c)) => CallerStep(s, c)
    case Spurious(Proxy) => s.(proxy := s.proxy.(pc := WantQueue, notified := false))
    case Spurious(Caller(c)) => WithCaller(s, c, s.callers[c].(pc := EnterOutput, notified := false))
    case Call(c, params) =>
      WithCaller(s, c, CallerThread(EnterQueue, |s.requests|, false)).(
        requests := s.requests + [Request(params, c, None, [])])
  }

  /** A schedule is a list of actions; an action that is not enabled when its turn comes does nothing. */
  function After(h: HashFn, s: State, schedule: seq<Action>): State {
    if schedule == [] then s
    else
      var before := After(h, s, schedule[..|schedule| - 1]);
      var a := schedule[|schedule| - 1];
      if Enabled(before, a) then Apply(h, before, a) else before
  }
}
