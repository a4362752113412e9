/** What the invariants say about whole runs of the proxy: it refines a direct call, no wake-up is
    lost, and every submitted request is answered. */
module ProxyTheorems {
  import opened Basics
  import opened ProxySteps
  import opened ProxySafety

  /** Requests are executed in submission order, each gets at most one output, and every caller
      returns the result of a direct call with its own parameters. */
  lemma ProxyRefinesDirectCall(h: HashFn, n: nat, schedule: seq<Action>)
    ensures var s := After(h, Initial(n), schedule);
            && s.executed <= s.submitted && NoDuplicates(s.submitted)
            && (forall r :: 0 <= r < |s.requests| ==>
                  && |s.requests[r].output| <= 1
                  && (s.requests[r].output != [] ==> r in s.executed))
            && (forall k :: 0 <= k < |s.returned| ==>
                  && s.returned[k].req < |s.requests|
                  && s.requests[s.returned[k].req].caller == s.returned[k].caller
                  && s.returned[k].value == Direct(h, s.requests[s.returned[k].req].params))
    ensures var s := After(h, Initial(n), schedule);
            forall k :: 0 <= k < |s.returned| ==>
              var p, v := s.requests[s.returned[k].req].params, s.returned[k].value;
              && (p.HashParams? ==> v == HashOutput(h(p.seedHash, p.input)))
              && (p.HeightParams? ==> v == HeightOutput(if p.height < 65 then 0 else (p.height - 65) / 2048 * 2048))
              && (p.FreeParams? ==> v == NoOutput)
  {
    AlwaysOk(h, n, schedule);
    var s := After(h, Initial(n), schedule);
    OneOutputEach(h, s);
    ReturnsAreDirect(h, s);
    assert s.executed + Pending(s.proxy) + s.queue == s.executed + (Pending(s.proxy) + s.queue);
    forall p: Params {
      DirectByKind(h, p);
    }
  }

  lemma OneOutputEach(h: HashFn, s: State)
    requires forall r :: 0 <= r < |s.requests| ==> RequestOk(h, s, r) && LockBelongs(s, r)
    ensures forall r :: 0 <= r < |s.requests| ==>
      && |s.requests[r].output| <= 1
      && (s.requests[r].output != [] ==> r in s.executed)
  {
    forall r | 0 <= r < |s.requests|
      ensures |s.requests[r].output| <= 1 && (s.requests[r].output != [] ==> r in s.executed)
    {
      assert RequestOk(h, s, r);
    }
  }

  lemma ReturnsAreDirect(h: HashFn, s: State)
    requires forall k :: 0 <= k < |s.returned| ==> ReturnOk(h, s, k)
    ensures forall k :: 0 <= k < |s.returned| ==>
      && s.returned[k].req < |s.requests|
      && s.requests[s.returned[k].req].caller == s.returned[k].caller
      && s.returned[k].value == Direct(h, s.requests[s.returned[k].req].params)
  {
    forall k | 0 <= k < |s.returned|
      ensures s.returned[k].req < |s.requests|
      ensures s.requests[s.returned[k].req].caller == s.returned[k].caller
      ensures s.returned[k].value == Direct(h, s.requests[s.returned[k].req].params)
    {
      assert ReturnOk(h, s, k);
    }
  }

  /** Requests stay what they were when they were made. */
  predicate SameRequests(s: State, s': State) {
    |s.requests| <= |s'.requests| && forall r :: 0 <= r < |s.requests| ==>
      s'.requests[r].params == s.requests[r].params && s'.requests[r].caller == s.requests[r].caller
  }

  lemma StepKeepsRequests(h: HashFn, s: State, a: Action)
    requires Enabled(s, a)
    ensures SameRequests(s, Apply(h, s, a))
  {
  }

  lemma {:induction false} RunKeepsRequests(h: HashFn, s: State, more: seq<Action>)
    ensures SameRequests(s, After(h, s, more))
  {
    if more != [] {
      var k := |more| - 1;
      RunKeepsRequests(h, s, more[..k]);
      var before := After(h, s, more[..k]);
      if Enabled(before, more[k]) {
        StepKeepsRequests(h, before, more[k]);
      }
    }
  }

  lemma {:induction false} AfterInTwo(h: HashFn, s: State, first: seq<Action>, more: seq<Action>)
    ensures After(h, s, first + more) == After(h, After(h, s, first), more)
    decreases more
  {
    if more == [] {
      assert first + more == first;
    } else {
      var k := |more| - 1;
      AfterInTwo(h, s, first, more[..k]);
      assert (first + more)[..|first + more| - 1] == first + more[..k];
    }
  }

  /** From call to return: in every continuation of a call, whatever is returned for its request goes to the thread
      that made the call, and is the direct result of the arguments it was made with. */
  lemma CallReturnsItsResult(h: HashFn, n: nat, schedule: seq<Action>, c: nat, params: Params,
                             more: seq<Action>, k: nat)
    requires Enabled(After(h, Initial(n), schedule), Call(c, params))
    requires k < |After(h, Initial(n), schedule + ([Call(c, params)] + more)).returned|
    ensures var s, t := After(h, Initial(n), schedule), After(h, Initial(n), schedule + ([Call(c, params)] + more));
            t.returned[k].req == |s.requests| ==>
              t.returned[k].caller == c && t.returned[k].value == Direct(h, params)
  {
    var s := After(h, Initial(n), schedule);
    var called := Apply(h, s, Call(c, params));
    AfterInTwo(h, Initial(n), schedule, [Call(c, params)] + more);
    AfterInTwo(h, s, [Call(c, params)], more);
    assert After(h, s, [Call(c, params)]) == called by {
      assert [Call(c, params)][..0] == [];
    }
    RunKeepsRequests(h, called, more);
    ProxyRefinesDirectCall(h, n, schedule + ([Call(c, params)] + more));
  }

  /** Nobody sleeps through work: a sleeping proxy with a non-empty queue, or a caller asleep beside
      its output, has been notified or the thread that holds the mutex is about to notify it. */
  lemma NoLostWakeUp(h: HashFn, n: nat, schedule: seq<Action>)
    ensures var s := After(h, Initial(n), schedule);
            s.proxy.pc.Asleep? && s.queue != [] && !s.proxy.notified ==>
              exists c :: 0 <= c < |s.callers| && s.queueLock == Some(Caller(c)) && s.callers[c].pc.NotifyProxy?
    ensures var s := After(h, Initial(n), schedule);
            forall c :: 0 <= c < |s.callers| && s.callers[c].pc.Waiting? && !s.callers[c].notified ==>
              s.callers[c].req < |s.requests|
              && (s.requests[s.callers[c].req].output != [] ==>
                    s.proxy.pc.NotifyCaller? && s.proxy.next < |s.proxy.batch| && Current(s.proxy) == s.callers[c].req)
  {
    AlwaysOk(h, n, schedule);
    var s := After(h, Initial(n), schedule);
    if s.proxy.pc.Asleep? && s.queue != [] && !s.proxy.notified {
      var c := s.queueLock.value.c;
      assert s.queueLock == Some(Caller(c)) && s.callers[c].pc.NotifyProxy?;
    }
    forall c | 0 <= c < |s.callers| && s.callers[c].pc.Waiting? && !s.callers[c].notified
      ensures CallerOk(s, c)
    {
    }
  }

  // ---------------------------------------------------------------------------------------------
  // Progress of one request
  // ---------------------------------------------------------------------------------------------

  /** The position of an element of a sequence. */
  function Index(s: seq<nat>, r: nat): (i: nat)
    requires r in s
    ensures i < |s| && s[i] == r
  {
    if s[0] == r then 0 else 1 + Index(s[1..], r)
  }

  lemma {:induction false} IndexIsUnique(s: seq<nat>, r: nat, i: nat)
    requires NoDuplicates(s) && i < |s| && s[i] == r
    ensures Index(s, r) == i
  {
    assert i == 0 || s[0] != s[i];
    if i > 0 {
      assert s[1..][i - 1] == r;
      IndexIsUnique(s[1..], r, i - 1);
    }
  }

  /** Steps of the proxy before it looks at the next request of its batch. */
  function Lead(pc: ProxyPc): nat {
    match pc
    case LeaveQueue => 1
    case Run => 0
    case WantOutput => 4
    case PushOutput => 3
    case NotifyCaller => 2
    case LeaveOutput => 1
    case _ => 0
  }

  /** Steps of the proxy before it drains the queue, when the queue is not empty. */
  function BeforeDrain(p: ProxyThread): nat {
    match p.pc
    case Drain => 0
    case CheckQueue => 1
    case WantQueue => 2
    case Asleep => 3
    case _ => Lead(p.pc) + 5 * |Pending(p)| + 3
  }

  /** Steps of the proxy until a submitted request has its output. */
  function Rank(s: State, r: nat): nat
    requires InHand(s.proxy, r) || r in Pending(s.proxy) || r in s.queue
  {
    if InHand(s.proxy, r) then (if s.proxy.pc.WantOutput? then 2 else 1)
    else if r in Pending(s.proxy) then Lead(s.proxy.pc) + 5 * Index(Pending(s.proxy), r) + 3
    else BeforeDrain(s.proxy) + 5 * Index(s.queue, r) + 5
  }

  predicate Unanswered(s: State, r: nat) {
    r in s.submitted && !Answered(s, r)
  }

  lemma WhereItIs(s: State, r: nat)
    requires OrderOk(s) && Unanswered(s, r)
    ensures InHand(s.proxy, r) || r in Pending(s.proxy) || r in s.queue
  {
  }

  lemma Duplicates(s: State)
    requires OrderOk(s)
    ensures NoDuplicates(Pending(s.proxy)) && NoDuplicates(s.queue)
    ensures forall r :: r in s.queue ==> r !in Pending(s.proxy)
    ensures forall r :: r in Pending(s.proxy) || r in s.queue ==> r !in s.executed
  {
    var e, p, q := |s.executed|, |Pending(s.proxy)|, |s.queue|;
    assert forall k :: 0 <= k < e ==> s.executed[k] == s.submitted[k];
    assert forall k :: 0 <= k < p ==> Pending(s.proxy)[k] == s.submitted[e + k];
    assert forall k :: 0 <= k < q ==> s.queue[k] == s.submitted[e + p + k];
  }

  predicate WhereIs(s: State, r: nat) {
    InHand(s.proxy, r) || r in Pending(s.proxy) || r in s.queue
  }

  /** The proxy takes the request at the head of its batch in hand. */
  lemma ExecuteLowersRank(h: HashFn, s: State, r: nat)
    requires ProxyFacts(h, s) && Executing(s.proxy) && Unanswered(s, r)
    ensures var s' := ProxyStep(h, s);
            WhereIs(s, r) && WhereIs(s', r) && Rank(s', r) < Rank(s, r)
  {
    WhereItIs(s, r);
    Duplicates(s);
    var p := s.proxy;
    assert Pending(p) == [Current(p)] + p.batch[p.next + 1..];
    RankAfterExecute(s, ProxyStep(h, s), r);
  }

  lemma RankAfterExecute(s: State, s': State, r: nat)
    requires WhereIs(s, r) && NoDuplicates(Pending(s.proxy)) && (r in s.queue ==> r !in Pending(s.proxy))
    requires s.proxy.pc.Run? && s'.proxy.pc.WantOutput? && s'.proxy.next < |s'.proxy.batch|
    requires Pending(s.proxy) == [Current(s'.proxy)] + Pending(s'.proxy) && s'.queue == s.queue
    ensures WhereIs(s', r) && Rank(s', r) < Rank(s, r)
  {
    var pending, rest := Pending(s.proxy), Pending(s'.proxy);
    if r in pending {
      IndexAfterHead(Current(s'.proxy), rest, r);
    } else {
      assert r !in rest;
    }
  }

  lemma IndexAfterHead(head: nat, rest: seq<nat>, r: nat)
    requires NoDuplicates([head] + rest) && r in [head] + rest
    ensures r == head <==> r !in rest
    ensures r in rest ==> Index([head] + rest, r) == Index(rest, r) + 1
  {
    var all := [head] + rest;
    assert rest == all[1..];
    if r in rest {
      var i := Index(rest, r);
      assert all[i + 1] == r && all[0] != all[i + 1];
    }
  }

  lemma DrainLowersRank(h: HashFn, s: State, r: nat)
    requires ProxyFacts(h, s) && s.proxy.pc.Drain? && Unanswered(s, r)
    ensures var s' := ProxyStep(h, s);
            WhereIs(s, r) && WhereIs(s', r) && Rank(s', r) < Rank(s, r)
  {
    WhereItIs(s, r);
    assert Pending(ProxyStep(h, s).proxy) == s.queue;
  }

  lemma OtherStepsLowerRank(h: HashFn, s: State, r: nat)
    requires ProxyFacts(h, s) && Unanswered(s, r)
    requires !Executing(s.proxy) && !s.proxy.pc.Drain? && !(s.proxy.pc.PushOutput? && InHand(s.proxy, r))
    ensures var s' := ProxyStep(h, s);
            WhereIs(s, r) && WhereIs(s', r) && Rank(s', r) < Rank(s, r)
  {
    WhereItIs(s, r);
    QuietPending(h, s);
    Duplicates(s);
    NextPc(h, s);
    assert s.executed != [] ==> s.executed[|s.executed| - 1] in s.executed;
    RankAfterOther(s, ProxyStep(h, s), r);
  }

  /** The program counters and the hand of the proxy after a step that moves no request. */
  predicate QuietMove(s: State, p': ProxyThread) {
    var p := s.proxy;
    match p.pc
    case Asleep => p'.pc.WantQueue?
    case WantQueue => p'.pc.CheckQueue?
    case CheckQueue => if s.queue == [] then p'.pc.Asleep? && !p'.notified else p'.pc.Drain?
    case Drain => false
    case LeaveQueue => p'.pc.Run?
    case Run => p'.pc.WantQueue? && Pending(p) == []
    case WantOutput => p'.pc.PushOutput? && p'.batch == p.batch && p'.next == p.next
    case PushOutput => p'.pc.NotifyCaller?
    case NotifyCaller => p'.pc.LeaveOutput?
    case LeaveOutput => p'.pc.Run?
  }

  lemma NextPc(h: HashFn, s: State)
    requires ProxyFacts(h, s) && !Executing(s.proxy) && !s.proxy.pc.Drain?
    ensures QuietMove(s, ProxyStep(h, s).proxy)
  {
  }

  lemma RankAfterOther(s: State, s': State, r: nat)
    requires WhereIs(s, r) && QuietMove(s, s'.proxy) && !(s.proxy.pc.PushOutput? && InHand(s.proxy, r))
    requires Pending(s'.proxy) == Pending(s.proxy) && s'.queue == s.queue
    requires s.proxy.pc.Asleep? || s.proxy.pc.WantQueue? || s.proxy.pc.CheckQueue? ==> Pending(s.proxy) == []
    ensures WhereIs(s', r) && Rank(s', r) < Rank(s, r)
  {
  }

  /** Every step of the proxy brings every waiting request closer to its output. */
  lemma ProxyLowersRank(h: HashFn, s: State, r: nat)
    requires Inv(h, s) && Enabled(s, Step(Proxy)) && Unanswered(s, r)
    ensures WhereIs(s, r)
    ensures var s' := ProxyStep(h, s);
            Answered(s', r) || (Unanswered(s', r) && WhereIs(s', r) && Rank(s', r) < Rank(s, r))
  {
    ProxyFactsHold(h, s);
    WhereItIs(s, r);
    if Executing(s.proxy) {
      ExecuteLowersRank(h, s, r);
      AnsweredAfterExecute(h, s, r);
    } else if s.proxy.pc.PushOutput? {
      AnsweredAfterPush(h, s, r);
      if r != Current(s.proxy) {
        OtherStepsLowerRank(h, s, r);
      }
    } else {
      AnsweredOtherwise(h, s, r);
      if s.proxy.pc.Drain? {
        DrainLowersRank(h, s, r);
      } else {
        OtherStepsLowerRank(h, s, r);
      }
    }
  }

  /** No other thread delays it: neither callers, nor new calls, nor spurious wake-ups. */
  lemma OthersKeepRank(h: HashFn, s: State, a: Action, r: nat)
    requires Inv(h, s) && Enabled(s, a) && a != Step(Proxy) && Unanswered(s, r)
    ensures WhereIs(s, r)
    ensures var s' := Apply(h, s, a);
            Unanswered(s', r) && WhereIs(s', r) && Rank(s', r) <= Rank(s, r)
  {
    WhereItIs(s, r);
    Duplicates(s);
    StepKeepsInv(h, s, a);
    var s' := Apply(h, s, a);
    Duplicates(s');
    match a {
      case Step(Caller(c)) =>
        CallerFrameHolds(s, c);
        if r in s.queue {
          IndexIsUnique(s'.queue, r, Index(s.queue, r));
        }
      case _ =>
    }
    assert Pending(s'.proxy) == Pending(s.proxy);
  }

  // ---------------------------------------------------------------------------------------------
  // Nothing blocks for long
  // ---------------------------------------------------------------------------------------------

  /** The steps a caller needs to give up the mutex it holds. */
  function HoldTime(pc: CallerPc): nat {
    match pc
    case Push => 3
    case NotifyProxy => 2
    case ExitQueue => 1
    case CheckOutput => 2
    case ReadOutput => 1
    case _ => 0
  }

  /** The caller that keeps the proxy from moving. */
  function Holder(s: State): nat
    requires ProxyReady(s) && !Enabled(s, Step(Proxy))
  {
    if s.proxy.pc.WantOutput? then s.requests[Current(s.proxy)].caller
    else if s.queueLock.Some? && s.queueLock.value.Caller? then s.queueLock.value.c
    else 0
  }

  lemma HolderOfOutput(h: HashFn, s: State)
    requires Inv(h, s) && ProxyFacts(h, s) && s.proxy.pc.WantOutput? && !Enabled(s, Step(Proxy))
    ensures Enabled(s, Step(Caller(Holder(s)))) && 1 <= HoldTime(s.callers[Holder(s)].pc) <= 3
  {
    var c := Holder(s);
    var lock := s.requests[Current(s.proxy)].lock;
    assert OutputLockOk(s, Current(s.proxy));
    assert lock != Some(Proxy);
    assert lock.Some? && lock.value.Caller?;
    assert LockBelongs(s, Current(s.proxy)) && CallerOk(s, c);
  }

  lemma HolderOfQueue(h: HashFn, s: State)
    requires Inv(h, s) && !s.proxy.pc.WantOutput? && ProxyReady(s) && !Enabled(s, Step(Proxy))
    requires s.queueLock.Some? && s.queueLock.value.Caller?
    ensures Enabled(s, Step(Caller(Holder(s)))) && 1 <= HoldTime(s.callers[Holder(s)].pc) <= 3
  {
    var c := Holder(s);
    assert CallerOk(s, c);
    assert CallerHoldsQueue(s.callers[c]) <==> s.queueLock == Some(Caller(c));
  }

  /** While a request waits, the proxy is only ever blocked by a caller that can move itself and
      needs at most three steps to get out of the way. */
  lemma BlockedByRunningCaller(h: HashFn, s: State, r: nat)
    requires Inv(h, s) && Unanswered(s, r) && ProxyReady(s) && !Enabled(s, Step(Proxy))
    ensures Enabled(s, Step(Caller(Holder(s))))
    ensures 1 <= HoldTime(s.callers[Holder(s)].pc) <= 3
  {
    ProxyFactsHold(h, s);
    WhereItIs(s, r);
    if s.proxy.pc.WantOutput? {
      HolderOfOutput(h, s);
    } else {
      HolderOfQueue(h, s);
    }
  }

  function Obstacle(s: State): nat
    requires ProxyReady(s)
  {
    if Enabled(s, Step(Proxy)) || Holder(s) >= |s.callers| then 0 else HoldTime(s.callers[Holder(s)].pc)
  }

  lemma HolderLeavesOutput(h: HashFn, s: State, c: nat)
    requires ProxyFacts(h, s) && s.proxy.pc.WantOutput? && CallerFacts(h, s, c)
    requires s.callers[c].req == Current(s.proxy) && CallerHoldsOutput(s.callers[c], Current(s.proxy))
    ensures var s' := CallerStep(s, c);
            ProxyReady(s') && Obstacle(s') < HoldTime(s.callers[c].pc)
  {
    CallerFrameHolds(s, c);
  }

  lemma HolderLeavesQueue(h: HashFn, s: State, c: nat)
    requires ProxyFacts(h, s) && CallerFacts(h, s, c) && s.queueLock == Some(Caller(c))
    requires s.proxy.pc.WantQueue? || (s.proxy.pc.Asleep? && s.callers[c].pc.NotifyProxy?)
    ensures var s' := CallerStep(s, c);
            ProxyReady(s') && Obstacle(s') < HoldTime(s.callers[c].pc)
  {
    CallerFrameHolds(s, c);
  }

  lemma HolderGetsOut(h: HashFn, s: State, r: nat)
    requires Inv(h, s) && Unanswered(s, r) && ProxyReady(s) && !Enabled(s, Step(Proxy))
    requires Enabled(s, Step(Caller(Holder(s)))) && 1 <= HoldTime(s.callers[Holder(s)].pc)
    ensures var s' := CallerStep(s, Holder(s));
            ProxyReady(s') && Obstacle(s') < Obstacle(s)
  {
    var c := Holder(s);
    CallerFactsHold(h, s, c);
    ProxyFactsHold(h, s);
    WhereItIs(s, r);
    if s.proxy.pc.WantOutput? {
      var lock := s.requests[Current(s.proxy)].lock;
      assert OutputLockOk(s, Current(s.proxy)) && LockBelongs(s, Current(s.proxy));
      assert lock.Some? && lock.value.Caller?;
      HolderLeavesOutput(h, s, c);
    } else {
      HolderLeavesQueue(h, s, c);
    }
  }

  // ---------------------------------------------------------------------------------------------
  // Every run answers a request
  // ---------------------------------------------------------------------------------------------

  /** The steps the proxy takes in a schedule. */
  function ProxyTurns(h: HashFn, s: State, more: seq<Action>): nat {
    if more == [] then 0
    else
      var k := |more| - 1;
      ProxyTurns(h, s, more[..k])
        + (if more[k] == Step(Proxy) && Enabled(After(h, s, more[..k]), more[k]) then 1 else 0)
  }

  lemma AnsweredStays(h: HashFn, s: State, a: Action, r: nat)
    requires Inv(h, s) && Enabled(s, a) && Answered(s, r)
    ensures Answered(Apply(h, s, a), r)
  {
    match a {
      case Step(Proxy) =>
        ProxyFactsHold(h, s);
        PendingIsSubmitted(s);
        if Executing(s.proxy) {
          AnsweredAfterExecute(h, s, r);
        } else if s.proxy.pc.PushOutput? {
          AnsweredAfterPush(h, s, r);
        } else {
          AnsweredOtherwise(h, s, r);
        }
      case Step(Caller(c)) => CallerFrameHolds(s, c);
      case _ =>
    }
  }

  /** The request has been answered, or the turns of the proxy have brought it that much closer. */
  predicate Approached(s: State, r: nat, rank: nat, turns: nat) {
    Answered(s, r) || (Unanswered(s, r) && WhereIs(s, r) && Rank(s, r) + turns <= rank)
  }

  lemma ApproachStep(h: HashFn, s: State, a: Action, r: nat, rank: nat, turns: nat)
    requires Inv(h, s) && Enabled(s, a) && Approached(s, r, rank, turns)
    ensures Approached(Apply(h, s, a), r, rank, turns + if a == Step(Proxy) then 1 else 0)
  {
    if Answered(s, r) {
      AnsweredStays(h, s, a, r);
    } else if a == Step(Proxy) {
      ProxyLowersRank(h, s, r);
    } else {
      OthersKeepRank(h, s, a, r);
    }
  }

  lemma {:induction false} ApproachRuns(h: HashFn, s: State, more: seq<Action>, r: nat)
    requires Inv(h, s) && Unanswered(s, r) && WhereIs(s, r)
    ensures Inv(h, After(h, s, more)) && Approached(After(h, s, more), r, Rank(s, r), ProxyTurns(h, s, more))
  {
    if more != [] {
      var k := |more| - 1;
      ApproachRuns(h, s, more[..k], r);
      var before := After(h, s, more[..k]);
      if Enabled(before, more[k]) {
        StepKeepsInv(h, before, more[k]);
        ApproachStep(h, before, more[k], r, Rank(s, r), ProxyTurns(h, s, more[..k]));
      }
    }
  }

  /** Liveness, over every continuation of every run, with new calls and spurious wake-ups: a submitted
      request is answered by the time the proxy has taken as many steps as its rank, and until then every
      step of the proxy lowers the rank and nothing raises it. */
  lemma EventuallyAnswered(h: HashFn, n: nat, schedule: seq<Action>, more: seq<Action>, r: nat)
    requires Unanswered(After(h, Initial(n), schedule), r)
    ensures var s, t := After(h, Initial(n), schedule), After(h, After(h, Initial(n), schedule), more);
            && WhereIs(s, r)
            && (Answered(t, r) || (WhereIs(t, r) && Rank(t, r) + ProxyTurns(h, s, more) <= Rank(s, r)))
            && (ProxyTurns(h, s, more) >= Rank(s, r) ==> Answered(t, r))
  {
    AlwaysOk(h, n, schedule);
    var s := After(h, Initial(n), schedule);
    WhereItIs(s, r);
    ApproachRuns(h, s, more, r);
  }

  // ---------------------------------------------------------------------------------------------
  // The proxy is blocked only briefly
  // ---------------------------------------------------------------------------------------------

  /** The proxy cannot step although a request waits. */
  predicate Blocked(s: State, r: nat) {
    Unanswered(s, r) && ProxyReady(s) && !Enabled(s, Step(Proxy))
  }

  /** Whether the proxy stays blocked during the whole schedule. */
  predicate StaysBlocked(h: HashFn, s: State, more: seq<Action>, r: nat) {
    Blocked(After(h, s, more), r) && (more != [] ==> StaysBlocked(h, s, more[..|more| - 1], r))
  }

  /** The steps a caller takes in a schedule. */
  function CallerTurns(h: HashFn, s: State, more: seq<Action>, c: nat): nat {
    if more == [] then 0
    else
      var k := |more| - 1;
      CallerTurns(h, s, more[..k], c)
        + (if more[k] == Step(Caller(c)) && Enabled(After(h, s, more[..k]), more[k]) then 1 else 0)
  }

  /** While the proxy stays blocked, others neither take over nor delay the caller it waits for. */
  lemma OthersKeepHolder(h: HashFn, s: State, a: Action, r: nat)
    requires Inv(h, s) && Blocked(s, r) && Enabled(s, a) && a != Step(Caller(Holder(s)))
    requires Blocked(Apply(h, s, a), r)
    ensures var s' := Apply(h, s, a);
            && Holder(s') == Holder(s) && Holder(s) < |s.callers| && Holder(s) < |s'.callers|
            && s'.callers[Holder(s)].pc == s.callers[Holder(s)].pc
  {
    ProxyFactsHold(h, s);
    BlockedByRunningCaller(h, s, r);
    match a {
      case Step(Caller(c)) =>
        CallerFactsHold(h, s, c);
        CallerFrameHolds(s, c);
      case _ =>
    }
  }

  lemma HolderStays(h: HashFn, s: State, r: nat)
    requires Inv(h, s) && Blocked(s, r) && Enabled(s, Step(Caller(Holder(s))))
    requires Blocked(Apply(h, s, Step(Caller(Holder(s)))), r)
    ensures Holder(Apply(h, s, Step(Caller(Holder(s))))) == Holder(s)
  {
    var c := Holder(s);
    ProxyFactsHold(h, s);
    CallerFactsHold(h, s, c);
    CallerFrameHolds(s, c);
    WhereItIs(s, r);
  }

  /** What is left for the holder to do. */
  predicate Leaving(s: State, r: nat, c: nat, turns: nat, time: nat) {
    && Blocked(s, r) && c == Holder(s) && c < |s.callers|
    && Enabled(s, Step(Caller(c)))
    && 1 <= HoldTime(s.callers[c].pc) && turns + HoldTime(s.callers[c].pc) <= time
  }

  lemma LeavingStep(h: HashFn, s: State, a: Action, r: nat, c: nat, turns: nat, time: nat)
    requires Inv(h, s) && Leaving(s, r, c, turns, time) && Enabled(s, a) && Blocked(Apply(h, s, a), r)
    ensures Leaving(Apply(h, s, a), r, c, turns + if a == Step(Caller(c)) then 1 else 0, time)
  {
    var s' := Apply(h, s, a);
    StepKeepsInv(h, s, a);
    BlockedByRunningCaller(h, s', r);
    if a == Step(Caller(c)) {
      HolderStays(h, s, r);
      HolderGetsOut(h, s, r);
    } else {
      OthersKeepHolder(h, s, a, r);
    }
  }

  /** In every run a proxy kept from a waiting request waits for one and the same caller, which can step
      and takes at most two steps before the proxy can go on: with its third it has let go. */
  lemma {:induction false} BlockedProxyIsFreed(h: HashFn, s: State, more: seq<Action>, r: nat)
    requires Inv(h, s) && StaysBlocked(h, s, more, r)
    ensures Blocked(s, r) && Holder(After(h, s, more)) == Holder(s)
    ensures Enabled(After(h, s, more), Step(Caller(Holder(s))))
    ensures CallerTurns(h, s, more, Holder(s)) <= 2
    ensures Inv(h, After(h, s, more))
    ensures Leaving(After(h, s, more), r, Holder(s), CallerTurns(h, s, more, Holder(s)), 3)
  {
    if more == [] {
      BlockedByRunningCaller(h, s, r);
    } else {
      var k := |more| - 1;
      BlockedProxyIsFreed(h, s, more[..k], r);
      var before := After(h, s, more[..k]);
      if Enabled(before, more[k]) {
        StepKeepsInv(h, before, more[k]);
        LeavingStep(h, before, more[k], r, Holder(s), CallerTurns(h, s, more[..k], Holder(s)), 3);
      }
    }
  }

  // ---------------------------------------------------------------------------------------------
  // Every run without new calls ends with all callers served
  // ---------------------------------------------------------------------------------------------

  /** The steps a caller has left, with the work it still causes for the proxy. */
  function CallerWork(s: State, c: nat): nat
    requires c < |s.callers|
  {
    var th := s.callers[c];
    var served := th.req < |s.requests| && s.requests[th.req].output != [];
    match th.pc
    case Outside => 0
    case EnterQueue => 23
    case Push => 22
    case NotifyProxy => 11
    case ExitQueue => 7
    case EnterOutput => if served then 3 else 6
    case CheckOutput => if served then 2 else 5
    case Waiting => 4
    case ReadOutput => 1
  }

  function CallersWork(s: State, n: nat): nat
    requires n <= |s.callers|
  {
    if n == 0 then 0 else CallersWork(s, n - 1) + CallerWork(s, n - 1)
  }

  function ProxyWork(s: State): nat {
    var p := s.proxy;
    5 * |Pending(p)| + 10 * |s.queue| +
    match p.pc
    case Asleep => if p.notified then 3 else 0
    case WantQueue => 2
    case CheckQueue => 1
    case Drain => 0
    case LeaveQueue => 4
    case Run => 3
    case _ => Lead(p.pc) + 3
  }

  function Work(s: State): nat {
    CallersWork(s, |s.callers|) + ProxyWork(s)
  }

  lemma {:induction false} CallersWorkFalls(s: State, s': State, n: nat)
    requires n <= |s.callers| == |s'.callers|
    requires forall c :: 0 <= c < n ==> CallerWork(s', c) <= CallerWork(s, c)
    ensures CallersWork(s', n) <= CallersWork(s, n)
  {
    if n > 0 {
      CallersWorkFalls(s, s', n - 1);
    }
  }

  lemma {:induction false} OneCallerWorks(s: State, s': State, n: nat, c: nat)
    requires c < n <= |s.callers| == |s'.callers|
    requires forall u :: 0 <= u < n && u != c ==> CallerWork(s', u) <= CallerWork(s, u)
    ensures CallersWork(s', n) - CallersWork(s, n) <= CallerWork(s', c) - CallerWork(s, c)
  {
    if c < n - 1 {
      OneCallerWorks(s, s', n - 1, c);
    } else {
      CallersWorkFalls(s, s', n - 1);
    }
  }

  lemma WorkAfterOther(s: State, s': State)
    requires QuietMove(s, s'.proxy) && (s.proxy.pc.Asleep? ==> s.proxy.notified)
    requires Pending(s'.proxy) == Pending(s.proxy) && s'.queue == s.queue
    ensures ProxyWork(s') < ProxyWork(s)
  {
  }

  lemma ProxyStepWorks(h: HashFn, s: State)
    requires ProxyFacts(h, s) && Enabled(s, Step(Proxy))
    ensures ProxyWork(ProxyStep(h, s)) < ProxyWork(s)
  {
    if Executing(s.proxy) {
      var p := s.proxy;
      assert p.batch[p.next..] == [Current(p)] + p.batch[p.next + 1..];
    } else if s.proxy.pc.Drain? {
      assert Pending(ProxyStep(h, s).proxy) == s.queue;
    } else {
      QuietPending(h, s);
      NextPc(h, s);
      WorkAfterOther(s, ProxyStep(h, s));
    }
  }

  lemma HandlingServes(h: HashFn, s: State, c: nat)
    requires ProxyFacts(h, s) && c < |s.callers| && Handling(s.proxy)
    ensures |ProxyStep(h, s).callers| == |s.callers|
    ensures CallerWork(ProxyStep(h, s), c) <= CallerWork(s, c)
  {
  }

  lemma ProxyStepServes(h: HashFn, s: State, c: nat)
    requires ProxyFacts(h, s) && c < |s.callers|
    ensures |ProxyStep(h, s).callers| == |s.callers|
    ensures CallerWork(ProxyStep(h, s), c) <= CallerWork(s, c)
  {
    if Handling(s.proxy) {
      HandlingServes(h, s, c);
    }
  }

  lemma CallerStepWorks(h: HashFn, s: State, c: nat)
    requires CallerFacts(h, s, c) && Enabled(s, Step(Caller(c)))
    ensures var s' := CallerStep(s, c);
            |s'.callers| == |s.callers|
            && CallerWork(s', c) + ProxyWork(s') < CallerWork(s, c) + ProxyWork(s)
  {
    CallerFrameHolds(s, c);
    assert Pending(CallerStep(s, c).proxy) == Pending(s.proxy);
  }

  lemma ProxyUsesUpWork(h: HashFn, s: State)
    requires Inv(h, s) && Enabled(s, Step(Proxy))
    ensures Work(ProxyStep(h, s)) < Work(s)
  {
    var s' := ProxyStep(h, s);
    ProxyFactsHold(h, s);
    ProxyStepWorks(h, s);
    SameSizes(h, s);
    forall c | 0 <= c < |s.callers|
      ensures CallerWork(s', c) <= CallerWork(s, c)
    {
      ProxyStepServes(h, s, c);
    }
    CallersWorkFalls(s, s', |s.callers|);
  }

  lemma CallerUsesUpWork(h: HashFn, s: State, c: nat)
    requires Inv(h, s) && Enabled(s, Step(Caller(c)))
    ensures Work(CallerStep(s, c)) < Work(s)
  {
    var s' := CallerStep(s, c);
    CallerFactsHold(h, s, c);
    CallerStepWorks(h, s, c);
    CallerFrameHolds(s, c);
    forall u | 0 <= u < |s.callers| && u != c
      ensures CallerWork(s', u) == CallerWork(s, u)
    {
      SameWork(s, s', c, u);
    }
    OneCallerWorks(s, s', |s.callers|, c);
  }

  lemma SameWork(s: State, s': State, c: nat, u: nat)
    requires c < |s.callers| && u < |s.callers| && u != c && s.callers[c].req < |s.requests|
    requires CallerFrame(s, s', c)
    ensures CallerWork(s', u) == CallerWork(s, u)
  {
  }

  /** Every step of the proxy or of a caller, in any order, uses up work. */
  lemma StepsUseUpWork(h: HashFn, s: State, who: Who)
    requires Inv(h, s) && Enabled(s, Step(who))
    ensures Work(Apply(h, s, Step(who))) < Work(s)
  {
    match who {
      case Proxy => ProxyUsesUpWork(h, s);
      case Caller(c) => CallerUsesUpWork(h, s, c);
    }
  }

  /** As long as some caller is inside a call, the proxy or some caller can make a step. */
  lemma SomeoneCanStep(h: HashFn, s: State, c: nat) returns (who: Who)
    requires Inv(h, s) && c < |s.callers| && !s.callers[c].pc.Outside?
    ensures Enabled(s, Step(who))
  {
    ProxyFactsHold(h, s);
    CallerFactsHold(h, s, c);
    if Enabled(s, Step(Proxy)) {
      who := Proxy;
    } else if s.proxy.pc.WantOutput? {
      HolderOfOutput(h, s);
      who := Caller(Holder(s));
    } else if s.queueLock.Some? && s.queueLock.value.Caller? {
      HolderOfQueue(h, s);
      who := Caller(Holder(s));
    } else {
      IdleProxyLetsCallerStep(h, s, c);
      who := Caller(c);
    }
  }

  lemma IdleProxyLetsCallerStep(h: HashFn, s: State, c: nat)
    requires Inv(h, s) && ProxyFacts(h, s) && CallerFacts(h, s, c)
    requires s.proxy.pc.Asleep? && !s.proxy.notified && !(s.queueLock.Some? && s.queueLock.value.Caller?)
    ensures Enabled(s, Step(Caller(c)))
  {
    var r := s.callers[c].req;
    assert s.queue == [] && s.submitted == s.executed;
    assert s.queueLock == None;
    assert s.callers[c].pc.Waiting? ==> Answered(s, r);
    var lock := s.requests[r].lock;
    assert OutputLockOk(s, r);
    assert !(lock.Some? && lock.value.Proxy?);
  }

  predicate IsStep(a: Action) {
    a.Step?
  }

  /** The steps taken in a schedule. */
  function StepsTaken(h: HashFn, s: State, more: seq<Action>): nat {
    if more == [] then 0
    else
      var k := |more| - 1;
      StepsTaken(h, s, more[..k]) + (if IsStep(more[k]) && Enabled(After(h, s, more[..k]), more[k]) then 1 else 0)
  }

  lemma {:induction false} RunsUseUpWork(h: HashFn, s: State, more: seq<Action>)
    requires Inv(h, s) && forall k :: 0 <= k < |more| ==> IsStep(more[k])
    ensures Inv(h, After(h, s, more)) && StepsTaken(h, s, more) + Work(After(h, s, more)) <= Work(s)
  {
    if more != [] {
      var k := |more| - 1;
      RunsUseUpWork(h, s, more[..k]);
      var before := After(h, s, more[..k]);
      assert IsStep(more[k]);
      if Enabled(before, more[k]) {
        StepsUseUpWork(h, before, more[k].who);
        StepKeepsInv(h, before, more[k]);
      }
    }
  }

  /** Every run of steps, in whatever order the threads take them, has at most as many as there was work;
      and when no thread can step any more, every caller has returned. */
  lemma EveryCallReturns(h: HashFn, n: nat, schedule: seq<Action>, more: seq<Action>)
    requires forall k :: 0 <= k < |more| ==> IsStep(more[k])
    ensures var s, t := After(h, Initial(n), schedule), After(h, After(h, Initial(n), schedule), more);
            && StepsTaken(h, s, more) <= Work(s)
            && ((forall who :: !Enabled(t, Step(who))) ==>
                  forall c :: 0 <= c < |t.callers| ==> t.callers[c].pc.Outside?)
  {
    AlwaysOk(h, n, schedule);
    var s := After(h, Initial(n), schedule);
    RunsUseUpWork(h, s, more);
    var t := After(h, s, more);
    if forall who :: !Enabled(t, Step(who)) {
      forall c | 0 <= c < |t.callers| ensures t.callers[c].pc.Outside? {
        if !t.callers[c].pc.Outside? {
          var who := SomeoneCanStep(h, t, c);
          assert false;
        }
      }
    }
  }
}
