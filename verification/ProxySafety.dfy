/** What every interleaving of the proxy and its callers keeps. */
module ProxySafety {
  import opened Basics
  import opened ProxySteps

  // ---------------------------------------------------------------------------------------------
  // The invariant
  // ---------------------------------------------------------------------------------------------

  predicate ProxyHoldsQueue(p: ProxyThread) {
    p.pc.CheckQueue? || p.pc.Drain? || p.pc.LeaveQueue?
  }

  predicate CallerHoldsQueue(th: CallerThread) {
    th.pc.Push? || th.pc.NotifyProxy? || th.pc.ExitQueue?
  }

  predicate ProxyHoldsOutput(p: ProxyThread, r: nat) {
    (p.pc.PushOutput? || p.pc.NotifyCaller? || p.pc.LeaveOutput?) && p.next < |p.batch| && Current(p) == r
  }

  predicate CallerHoldsOutput(th: CallerThread, r: nat) {
    (th.pc.CheckOutput? || th.pc.ReadOutput?) && th.req == r
  }

  /** The owner of a mutex is exactly the thread whose program counter says so. */
  ghost predicate QueueLockOk(s: State) {
    && (s.queueLock == Some(Proxy) <==> ProxyHoldsQueue(s.proxy))
    && (s.queueLock.Some? && s.queueLock.value.Caller? ==> s.queueLock.value.c < |s.callers|)
    && (forall c :: 0 <= c < |s.callers| ==>
          (CallerHoldsQueue(s.callers[c]) <==> s.queueLock == Some(Caller(c))))
  }

  predicate OutputLockOk(s: State, r: nat)
    requires r < |s.requests|
  {
    var lock := s.requests[r].lock;
    && (lock == Some(Proxy) <==> ProxyHoldsOutput(s.proxy, r))
    && (lock.Some? && lock.value.Caller? ==> lock.value.c == s.requests[r].caller)
  }

  predicate InHand(p: ProxyThread, r: nat) {
    (p.pc.WantOutput? || p.pc.PushOutput?) && p.next < |p.batch| && Current(p) == r
  }

  /** Executed, and the result delivered. */
  predicate Answered(s: State, r: nat) {
    r in s.executed && !InHand(s.proxy, r)
  }

  /** A request has its one result once it is answered, and none before. */
  predicate RequestOk(h: HashFn, s: State, r: nat)
    requires r < |s.requests|
  {
    && s.requests[r].caller < |s.callers|
    && OutputLockOk(s, r)
    && s.requests[r].output == (if Answered(s, r) then [Direct(h, s.requests[r].params)] else [])
  }

  predicate CallerOk(s: State, c: nat)
    requires c < |s.callers|
  {
    var th := s.callers[c];
    !th.pc.Outside? ==>
      && th.req < |s.requests|
      && s.requests[th.req].caller == c
      && (th.pc.EnterQueue? || th.pc.Push? <==> th.req !in s.submitted)
      && (CallerHoldsOutput(th, th.req) <==> s.requests[th.req].lock == Some(Caller(c)))
      && (th.pc.ReadOutput? ==> s.requests[th.req].output != [])
      && (th.pc.Waiting? && th.notified ==> s.requests[th.req].output != [])
      && (th.pc.Waiting? && !th.notified ==>
            || s.requests[th.req].output == []
            || (s.proxy.pc.NotifyCaller? && s.proxy.next < |s.proxy.batch| && Current(s.proxy) == th.req))
  }

  /** A request whose caller is elsewhere is not locked by it. */
  predicate LockBelongs(s: State, r: nat)
    requires r < |s.requests| && s.requests[r].caller < |s.callers|
  {
    var c := s.requests[r].caller;
    s.requests[r].lock == Some(Caller(c)) ==> !s.callers[c].pc.Outside? && s.callers[c].req == r
  }

  /** The requests of the batch that have not been executed yet. */
  function Pending(p: ProxyThread): seq<nat> {
    if (p.pc.Run? || p.pc.LeaveQueue?) && p.next <= |p.batch| then p.batch[p.next..]
    else if Handling(p) && p.next < |p.batch| then p.batch[p.next + 1..]
    else []
  }

  predicate NoDuplicates(s: seq<nat>) {
    forall i, j :: 0 <= i < j < |s| ==> s[i] != s[j]
  }

  /** Requests are executed in the order of their submission, each once. */
  predicate OrderOk(s: State) {
    && s.submitted == s.executed + Pending(s.proxy) + s.queue
    && NoDuplicates(s.submitted)
    && (forall k :: 0 <= k < |s.submitted| ==> s.submitted[k] < |s.requests|)
  }

  predicate ProxyOk(h: HashFn, s: State) {
    var p := s.proxy;
    && (p.pc.Asleep? || p.pc.WantQueue? || p.pc.CheckQueue? || p.pc.Drain? ==> p.batch == [] && p.next == 0)
    && (p.pc.Drain? ==> s.queue != [])
    && (p.pc.LeaveQueue? ==> p.next == 0)
    && (p.pc.Run? ==> p.next <= |p.batch|)
    && (Handling(p) ==>
          && p.next < |p.batch| && Current(p) < |s.requests|
          && s.executed != [] && s.executed[|s.executed| - 1] == Current(p)
          && p.result == Direct(h, s.requests[Current(p)].params))
  }

  /** A sleeping proxy has nothing to do, has been notified, or is about to be. */
  predicate SleepOk(s: State) {
    s.proxy.pc.Asleep? && !s.proxy.notified ==>
      || s.queue == []
      || (s.queueLock.Some? && s.queueLock.value.Caller? && s.queueLock.value.c < |s.callers|
          && s.callers[s.queueLock.value.c].pc.NotifyProxy?)
  }

  predicate ReturnOk(h: HashFn, s: State, k: nat)
    requires k < |s.returned|
  {
    var ret := s.returned[k];
    && ret.req < |s.requests| && s.requests[ret.req].caller == ret.caller
    && ret.value == Direct(h, s.requests[ret.req].params)
  }

  ghost predicate Inv(h: HashFn, s: State) {
    && QueueLockOk(s)
    && (forall r :: 0 <= r < |s.requests| ==> RequestOk(h, s, r) && LockBelongs(s, r))
    && (forall c :: 0 <= c < |s.callers| ==> CallerOk(s, c))
    && OrderOk(s) && ProxyOk(h, s) && SleepOk(s)
    && (forall k :: 0 <= k < |s.returned| ==> ReturnOk(h, s, k))
  }

  lemma InitialOk(h: HashFn, n: nat)
    ensures Inv(h, Initial(n))
  {
  }

  // ---------------------------------------------------------------------------------------------
  // Steps of the proxy
  // ---------------------------------------------------------------------------------------------

  /** About to execute the next request of the batch. */
  predicate Executing(p: ProxyThread) {
    p.pc.Run? && p.next < |p.batch|
  }

  /** The facts about the proxy and the request in its hands. */
  predicate ProxyFacts(h: HashFn, s: State) {
    && ProxyReady(s) && ProxyOk(h, s) && OrderOk(s)
    && (Executing(s.proxy) || Handling(s.proxy) ==>
          RequestOk(h, s, Current(s.proxy)) && LockBelongs(s, Current(s.proxy)))
  }

  lemma PendingIsSubmitted(s: State)
    requires OrderOk(s)
    ensures forall k :: 0 <= k < |Pending(s.proxy)| ==> Pending(s.proxy)[k] in s.submitted
    ensures forall k :: 0 <= k < |Pending(s.proxy)| ==> Pending(s.proxy)[k] < |s.requests|
    ensures forall k :: 0 <= k < |Pending(s.proxy)| ==> Pending(s.proxy)[k] !in s.executed
    ensures forall k :: 0 <= k < |s.executed| ==> s.executed[k] in s.submitted
    ensures forall k :: 0 <= k < |s.queue| ==> s.queue[k] in s.submitted && s.queue[k] !in s.executed
    ensures NoDuplicates(s.executed)
  {
    var e, p, q := |s.executed|, |Pending(s.proxy)|, |s.queue|;
    assert forall k :: 0 <= k < e ==> s.executed[k] == s.submitted[k];
    assert forall k :: 0 <= k < p ==> Pending(s.proxy)[k] == s.submitted[e + k];
    assert forall k :: 0 <= k < q ==> s.queue[k] == s.submitted[e + p + k];
  }

  lemma ProxyFactsHold(h: HashFn, s: State)
    requires Inv(h, s)
    ensures ProxyFacts(h, s)
  {
    PendingIsSubmitted(s);
    if Executing(s.proxy) {
      assert Pending(s.proxy)[0] == Current(s.proxy);
    }
    if Executing(s.proxy) || Handling(s.proxy) {
      assert RequestOk(h, s, Current(s.proxy)) && LockBelongs(s, Current(s.proxy));
    }
  }

  lemma ExecuteKeepsOrder(h: HashFn, s: State)
    requires ProxyFacts(h, s) && Executing(s.proxy)
    ensures OrderOk(ProxyStep(h, s)) && ProxyOk(h, ProxyStep(h, s))
  {
    var p := s.proxy;
    assert p.batch[p.next..] == [Current(p)] + p.batch[p.next + 1..];
    assert s.executed + ([Current(p)] + p.batch[p.next + 1..]) == s.executed + [Current(p)] + p.batch[p.next + 1..];
  }

  lemma DrainKeepsOrder(h: HashFn, s: State)
    requires ProxyFacts(h, s) && s.proxy.pc.Drain?
    ensures OrderOk(ProxyStep(h, s)) && ProxyOk(h, ProxyStep(h, s))
  {
    assert Pending(ProxyStep(h, s).proxy) == s.queue;
    assert s.executed + [] + s.queue == s.executed + s.queue + [];
  }

  /** The other steps move no request. */
  lemma QuietPending(h: HashFn, s: State)
    requires ProxyFacts(h, s) && !Executing(s.proxy) && !s.proxy.pc.Drain?
    ensures var s' := ProxyStep(h, s);
            && Pending(s'.proxy) == Pending(s.proxy) && |s'.requests| == |s.requests|
            && s'.submitted == s.submitted && s'.executed == s.executed && s'.queue == s.queue
  {
  }

  lemma HandlingProxyOk(h: HashFn, s: State)
    requires ProxyFacts(h, s) && Handling(s.proxy)
    ensures ProxyOk(h, ProxyStep(h, s))
  {
  }

  lemma QueueingProxyOk(h: HashFn, s: State)
    requires ProxyFacts(h, s) && !Executing(s.proxy) && !s.proxy.pc.Drain? && !Handling(s.proxy)
    ensures ProxyOk(h, ProxyStep(h, s))
  {
  }

  lemma ProxyKeepsOrder(h: HashFn, s: State)
    requires ProxyFacts(h, s) && Enabled(s, Step(Proxy))
    ensures OrderOk(ProxyStep(h, s)) && ProxyOk(h, ProxyStep(h, s))
  {
    if Executing(s.proxy) {
      ExecuteKeepsOrder(h, s);
    } else if s.proxy.pc.Drain? {
      DrainKeepsOrder(h, s);
    } else {
      QuietPending(h, s);
      if Handling(s.proxy) {
        HandlingProxyOk(h, s);
      } else {
        QueueingProxyOk(h, s);
      }
    }
  }

  lemma HandlingKeepsCaller(h: HashFn, s: State, c: nat)
    requires ProxyFacts(h, s) && Enabled(s, Step(Proxy)) && Handling(s.proxy)
    requires c < |s.callers| && CallerOk(s, c)
    ensures |ProxyStep(h, s).callers| == |s.callers| && CallerOk(ProxyStep(h, s), c)
  {
  }

  lemma ProxyKeepsCaller(h: HashFn, s: State, c: nat)
    requires ProxyFacts(h, s) && Enabled(s, Step(Proxy))
    requires c < |s.callers| && CallerOk(s, c)
    ensures |ProxyStep(h, s).callers| == |s.callers| && CallerOk(ProxyStep(h, s), c)
  {
    if Handling(s.proxy) {
      HandlingKeepsCaller(h, s, c);
    }
  }

  lemma AnsweredAfterExecute(h: HashFn, s: State, r: nat)
    requires ProxyFacts(h, s) && Executing(s.proxy)
    ensures Answered(ProxyStep(h, s), r) <==> Answered(s, r)
  {
    PendingIsSubmitted(s);
    assert Pending(s.proxy)[0] == Current(s.proxy);
  }

  lemma AnsweredAfterPush(h: HashFn, s: State, r: nat)
    requires ProxyFacts(h, s) && s.proxy.pc.PushOutput?
    ensures Answered(ProxyStep(h, s), r) <==> Answered(s, r) || r == Current(s.proxy)
    ensures r == Current(s.proxy) ==> !Answered(s, r)
  {
    assert s.executed[|s.executed| - 1] in s.executed;
  }

  lemma AnsweredOtherwise(h: HashFn, s: State, r: nat)
    requires ProxyFacts(h, s) && Enabled(s, Step(Proxy)) && !Executing(s.proxy) && !s.proxy.pc.PushOutput?
    ensures Answered(ProxyStep(h, s), r) <==> Answered(s, r)
  {
  }

  lemma ProxyKeepsOutputLock(h: HashFn, s: State, r: nat)
    requires ProxyFacts(h, s) && Enabled(s, Step(Proxy))
    requires r < |s.requests| && OutputLockOk(s, r)
    ensures |ProxyStep(h, s).requests| == |s.requests| && OutputLockOk(ProxyStep(h, s), r)
  {
    if Handling(s.proxy) {
      HandlingKeepsOutputLock(h, s, r);
    }
  }

  lemma HandlingKeepsOutputLock(h: HashFn, s: State, r: nat)
    requires ProxyFacts(h, s) && Enabled(s, Step(Proxy)) && Handling(s.proxy)
    requires r < |s.requests| && OutputLockOk(s, r)
    ensures |ProxyStep(h, s).requests| == |s.requests| && OutputLockOk(ProxyStep(h, s), r)
  {
  }

  lemma ProxyKeepsRequest(h: HashFn, s: State, r: nat)
    requires ProxyFacts(h, s) && Enabled(s, Step(Proxy))
    requires r < |s.requests| && RequestOk(h, s, r) && LockBelongs(s, r)
    ensures |ProxyStep(h, s).requests| == |s.requests|
    ensures RequestOk(h, ProxyStep(h, s), r) && LockBelongs(ProxyStep(h, s), r)
  {
    ProxyKeepsOutputLock(h, s, r);
    ProxyKeepsResult(h, s, r);
  }

  lemma ProxyKeepsResult(h: HashFn, s: State, r: nat)
    requires ProxyFacts(h, s) && Enabled(s, Step(Proxy))
    requires r < |s.requests| && RequestOk(h, s, r) && LockBelongs(s, r)
    ensures var s' := ProxyStep(h, s);
            |s'.requests| == |s.requests| && |s'.callers| == |s.callers|
            && s'.requests[r].caller == s.requests[r].caller
            && LockBelongs(s', r)
            && s'.requests[r].output == (if Answered(s', r) then [Direct(h, s'.requests[r].params)] else [])
  {
    if Executing(s.proxy) {
      AnsweredAfterExecute(h, s, r);
    } else if s.proxy.pc.PushOutput? {
      AnsweredAfterPush(h, s, r);
    } else {
      AnsweredOtherwise(h, s, r);
    }
  }

  lemma ProxyKeepsQueueLock(h: HashFn, s: State)
    requires QueueLockOk(s) && ProxyFacts(h, s) && Enabled(s, Step(Proxy))
    ensures QueueLockOk(ProxyStep(h, s))
  {
    var s' := ProxyStep(h, s);
    assert |s'.callers| == |s.callers|;
    assert forall c :: 0 <= c < |s.callers| ==> s'.callers[c].pc == s.callers[c].pc;
  }

  lemma ProxyKeepsSleep(h: HashFn, s: State)
    requires SleepOk(s) && ProxyFacts(h, s) && Enabled(s, Step(Proxy))
    ensures SleepOk(ProxyStep(h, s))
  {
  }

  lemma ProxyKeepsReturn(h: HashFn, s: State, k: nat)
    requires ProxyReady(s) && k < |s.returned| && ReturnOk(h, s, k)
    ensures k < |ProxyStep(h, s).returned| == |s.returned| && ReturnOk(h, ProxyStep(h, s), k)
  {
  }

  lemma ProxyKeepsInv(h: HashFn, s: State)
    requires Inv(h, s) && Enabled(s, Step(Proxy))
    ensures Inv(h, ProxyStep(h, s))
  {
    var s' := ProxyStep(h, s);
    ProxyFactsHold(h, s);
    ProxyKeepsOrder(h, s);
    ProxyKeepsQueueLock(h, s);
    ProxyKeepsSleep(h, s);
    SameSizes(h, s);
    forall r | 0 <= r < |s'.requests|
      ensures RequestOk(h, s', r) && LockBelongs(s', r)
    {
      ProxyKeepsRequest(h, s, r);
    }
    forall c | 0 <= c < |s'.callers|
      ensures CallerOk(s', c)
    {
      ProxyKeepsCaller(h, s, c);
    }
    forall k | 0 <= k < |s'.returned|
      ensures ReturnOk(h, s', k)
    {
      ProxyKeepsReturn(h, s, k);
    }
  }

  lemma SameSizes(h: HashFn, s: State)
    requires ProxyReady(s)
    ensures var s' := ProxyStep(h, s);
            |s'.requests| == |s.requests| && |s'.callers| == |s.callers| && |s'.returned| == |s.returned|
  {
  }

  // ---------------------------------------------------------------------------------------------
  // Steps of a caller
  // ---------------------------------------------------------------------------------------------

  /** The facts about a caller, its request and the queue lock. */
  predicate CallerFacts(h: HashFn, s: State, c: nat) {
    && CallerReady(s, c) && CallerOk(s, c) && !s.callers[c].pc.Outside?
    && RequestOk(h, s, s.callers[c].req) && LockBelongs(s, s.callers[c].req)
    && (CallerHoldsQueue(s.callers[c]) <==> s.queueLock == Some(Caller(c)))
  }

  lemma CallerFactsHold(h: HashFn, s: State, c: nat)
    requires Inv(h, s) && c < |s.callers| && !s.callers[c].pc.Outside?
    ensures CallerFacts(h, s, c)
  {
    assert CallerOk(s, c);
    assert RequestOk(h, s, s.callers[c].req) && LockBelongs(s, s.callers[c].req);
  }

  /** What the step of caller c leaves alone. */
  predicate CallerFrame(s: State, s': State, c: nat)
    requires c < |s.callers| && s.callers[c].req < |s.requests|
  {
    var r := s.callers[c].req;
    && |s'.callers| == |s.callers| && |s'.requests| == |s.requests|
    && (forall u :: 0 <= u < |s.callers| && u != c ==> s'.callers[u] == s.callers[u])
    && (forall k :: 0 <= k < |s.requests| && k != r ==> s'.requests[k] == s.requests[k])
    && s'.requests[r] == s.requests[r].(lock := s'.requests[r].lock)
    && s'.proxy == s.proxy.(notified := s'.proxy.notified)
    && s'.executed == s.executed
    && (if s.callers[c].pc.Push? then s'.submitted == s.submitted + [r] && s'.queue == s.queue + [r]
        else s'.submitted == s.submitted && s'.queue == s.queue)
  }

  lemma CallerFrameHolds(s: State, c: nat)
    requires CallerReady(s, c) && !s.callers[c].pc.Outside?
    ensures CallerFrame(s, CallerStep(s, c), c)
  {
  }

  lemma CallerKeepsOther(s: State, s': State, c: nat, u: nat)
    requires c < |s.callers| && u < |s.callers| && u != c && !s.callers[c].pc.Outside?
    requires CallerOk(s, c) && CallerOk(s, u) && CallerFrame(s, s', c)
    ensures CallerOk(s', u)
  {
  }

  lemma CallerKeepsItself(h: HashFn, s: State, c: nat)
    requires CallerFacts(h, s, c) && Enabled(s, Step(Caller(c)))
    ensures |CallerStep(s, c).callers| == |s.callers| && CallerOk(CallerStep(s, c), c)
  {
  }

  lemma CallerKeepsRequest(h: HashFn, s: State, c: nat, r: nat)
    requires CallerFacts(h, s, c) && Enabled(s, Step(Caller(c)))
    requires r < |s.requests| && RequestOk(h, s, r) && LockBelongs(s, r)
    ensures |CallerStep(s, c).requests| == |s.requests|
    ensures RequestOk(h, CallerStep(s, c), r) && LockBelongs(CallerStep(s, c), r)
  {
    CallerFrameHolds(s, c);
    assert Answered(CallerStep(s, c), r) <==> Answered(s, r);
  }

  lemma CallerKeepsOrder(h: HashFn, s: State, c: nat)
    requires CallerFacts(h, s, c) && OrderOk(s) && ProxyOk(h, s)
    ensures OrderOk(CallerStep(s, c)) && ProxyOk(h, CallerStep(s, c))
  {
    CallerFrameHolds(s, c);
    OrderAfterPush(h, s, CallerStep(s, c), c);
  }

  lemma OrderAfterPush(h: HashFn, s: State, s': State, c: nat)
    requires CallerFacts(h, s, c) && OrderOk(s) && ProxyOk(h, s) && CallerFrame(s, s', c)
    ensures OrderOk(s') && ProxyOk(h, s')
  {
    assert Pending(s'.proxy) == Pending(s.proxy);
    if s.callers[c].pc.Push? {
      var r := s.callers[c].req;
      assert s.executed + Pending(s.proxy) + (s.queue + [r]) == s.executed + Pending(s.proxy) + s.queue + [r];
    }
  }

  lemma CallerKeepsQueueLock(h: HashFn, s: State, c: nat)
    requires QueueLockOk(s) && CallerFacts(h, s, c) && Enabled(s, Step(Caller(c)))
    ensures QueueLockOk(CallerStep(s, c))
  {
    CallerFrameHolds(s, c);
  }

  lemma CallerKeepsSleep(h: HashFn, s: State, c: nat)
    requires SleepOk(s) && CallerFacts(h, s, c) && Enabled(s, Step(Caller(c)))
    ensures SleepOk(CallerStep(s, c))
  {
  }

  lemma CallerKeepsReturn(h: HashFn, s: State, c: nat, k: nat)
    requires CallerFacts(h, s, c) && k < |CallerStep(s, c).returned|
    requires k < |s.returned| ==> ReturnOk(h, s, k)
    ensures ReturnOk(h, CallerStep(s, c), k)
  {
    CallerFrameHolds(s, c);
  }

  lemma CallerKeepsInv(h: HashFn, s: State, c: nat)
    requires Inv(h, s) && Enabled(s, Step(Caller(c)))
    ensures Inv(h, CallerStep(s, c))
  {
    var s' := CallerStep(s, c);
    CallerFactsHold(h, s, c);
    CallerFrameHolds(s, c);
    CallerKeepsOrder(h, s, c);
    CallerKeepsQueueLock(h, s, c);
    CallerKeepsSleep(h, s, c);
    forall r | 0 <= r < |s'.requests|
      ensures RequestOk(h, s', r) && LockBelongs(s', r)
    {
      CallerKeepsRequest(h, s, c, r);
    }
    forall u | 0 <= u < |s'.callers|
      ensures CallerOk(s', u)
    {
      if u == c {
        CallerKeepsItself(h, s, c);
      } else {
        CallerKeepsOther(s, s', c, u);
      }
    }
    forall k | 0 <= k < |s'.returned|
      ensures ReturnOk(h, s', k)
    {
      CallerKeepsReturn(h, s, c, k);
    }
  }

  // ---------------------------------------------------------------------------------------------
  // Wake-ups without notification, and new calls
  // ---------------------------------------------------------------------------------------------

  lemma SpuriousProxyKeepsInv(h: HashFn, s: State)
    requires Inv(h, s) && s.proxy.pc.Asleep?
    ensures Inv(h, Apply(h, s, Spurious(Proxy)))
  {
    var s' := Apply(h, s, Spurious(Proxy));
    forall r | 0 <= r < |s'.requests|
      ensures RequestOk(h, s', r) && LockBelongs(s', r)
    {
      assert RequestOk(h, s, r) && LockBelongs(s, r);
      assert Answered(s', r) <==> Answered(s, r);
    }
    forall c | 0 <= c < |s'.callers|
      ensures CallerOk(s', c)
    {
      assert CallerOk(s, c);
    }
    forall k | 0 <= k < |s'.returned|
      ensures ReturnOk(h, s', k)
    {
      assert ReturnOk(h, s, k);
    }
  }

  /** A caller that changes its program counter outside the queue, or opens a new request. */
  lemma SpuriousCallerKeepsInv(h: HashFn, s: State, c: nat)
    requires Inv(h, s) && c < |s.callers| && s.callers[c].pc.Waiting?
    ensures Inv(h, Apply(h, s, Spurious(Caller(c))))
  {
    var s' := Apply(h, s, Spurious(Caller(c)));
    CallerFactsHold(h, s, c);
    forall r | 0 <= r < |s'.requests|
      ensures RequestOk(h, s', r) && LockBelongs(s', r)
    {
      assert RequestOk(h, s, r) && LockBelongs(s, r);
      assert Answered(s', r) <==> Answered(s, r);
    }
    forall u | 0 <= u < |s'.callers|
      ensures CallerOk(s', u)
    {
      assert CallerOk(s, u);
    }
    forall k | 0 <= k < |s'.returned|
      ensures ReturnOk(h, s', k)
    {
      assert ReturnOk(h, s, k);
    }
  }

  lemma CallKeepsRequest(h: HashFn, s: State, c: nat, params: Params, r: nat)
    requires c < |s.callers| && s.callers[c].pc.Outside? && r <= |s.requests|
    requires OrderOk(s) && ProxyOk(h, s)
    requires r < |s.requests| ==> RequestOk(h, s, r) && LockBelongs(s, r)
    ensures var s' := Apply(h, s, Call(c, params));
            r < |s'.requests| && RequestOk(h, s', r) && LockBelongs(s', r)
  {
    var s' := Apply(h, s, Call(c, params));
    PendingIsSubmitted(s);
    assert Answered(s', r) <==> Answered(s, r);
    if r == |s.requests| {
      assert r !in s.submitted;
      assert r !in s.executed;
    }
  }

  lemma CallKeepsInv(h: HashFn, s: State, c: nat, params: Params)
    requires Inv(h, s) && c < |s.callers| && s.callers[c].pc.Outside?
    ensures Inv(h, Apply(h, s, Call(c, params)))
  {
    var s' := Apply(h, s, Call(c, params));
    forall r | 0 <= r < |s'.requests|
      ensures RequestOk(h, s', r) && LockBelongs(s', r)
    {
      assert r < |s.requests| ==> RequestOk(h, s, r) && LockBelongs(s, r);
      CallKeepsRequest(h, s, c, params, r);
    }
    forall u | 0 <= u < |s'.callers|
      ensures CallerOk(s', u)
    {
      assert CallerOk(s, u);
    }
    forall k | 0 <= k < |s'.returned|
      ensures ReturnOk(h, s', k)
    {
      assert ReturnOk(h, s, k);
    }
    assert Pending(s'.proxy) == Pending(s.proxy);
  }

  lemma StepKeepsInv(h: HashFn, s: State, a: Action)
    requires Inv(h, s) && Enabled(s, a)
    ensures Inv(h, Apply(h, s, a))
  {
    match a {
      case Step(Proxy) => ProxyKeepsInv(h, s);
      case Step(Caller(c)) => CallerKeepsInv(h, s, c);
      case Spurious(Proxy) => SpuriousProxyKeepsInv(h, s);
      case Spurious(Caller(c)) => SpuriousCallerKeepsInv(h, s, c);
      case Call(c, params) => CallKeepsInv(h, s, c, params);
    }
  }

  /** The invariant holds in every state of every schedule. */
  lemma {:induction false} AlwaysOk(h: HashFn, n: nat, schedule: seq<Action>)
    ensures Inv(h, After(h, Initial(n), schedule))
  {
    if schedule == [] {
      InitialOk(h, n);
    } else {
      var k := |schedule| - 1;
      AlwaysOk(h, n, schedule[..k]);
      var before := After(h, Initial(n), schedule[..k]);
      if Enabled(before, schedule[k]) {
        StepKeepsInv(h, before, schedule[k]);
      }
    }
  }
}
