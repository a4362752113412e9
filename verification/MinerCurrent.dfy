/** When the number of a job is the current one, so that its events are delivered: `start` reads the
    sequence number after its own `cancel` has let go of the mutexes (src/qrandomx/qrxminer.cpp:161-177),
    and from then on only another `cancel` can outdate it. */
module MinerCurrent {
  import opened Basics
  import opened MinerSteps
  import opened MinerLocks
  import opened MinerSafety
  import opened MinerTheorems
  import opened MinerComplete

  /** The action takes a sequence number. */
  predicate TakesNumber(s: State, a: Action) {
    a.Step? && Enabled(s, a) && s.actors[a.a].Advance?
  }

  /** The sequence numbers taken in a schedule. */
  function NumbersTaken(h: HashFn, s: State, more: seq<Action>): nat {
    if more == [] then 0
    else
      var k := |more| - 1;
      NumbersTaken(h, s, more[..k]) + (if TakesNumber(After(h, s, more[..k]), more[k]) then 1 else 0)
  }

  lemma SequenceStep(h: HashFn, s: State, a: Action)
    requires Enabled(s, a)
    ensures Apply(h, s, a).sequence == s.sequence + if TakesNumber(s, a) then 1 else 0
  {
    match a {
      case Step(b) =>
        if !s.actors[b].Advance? {
          ActorStepKeepsRest(s, b);
        }
      case Work(i) => WorkerStepIsLocal(h, s, i);
      case Listen => EventStepIsLocal(s);
      case _ =>
    }
  }

  lemma {:induction false} SequenceCounts(h: HashFn, s: State, more: seq<Action>)
    ensures After(h, s, more).sequence == s.sequence + NumbersTaken(h, s, more)
  {
    if more != [] {
      var k := |more| - 1;
      SequenceCounts(h, s, more[..k]);
      var before := After(h, s, more[..k]);
      if Enabled(before, more[k]) {
        SequenceStep(h, before, more[k]);
      }
    }
  }

  /** A job is current when `start` reads its number. As long as no other job replaces it, it is outdated
      if and only if a `cancel` has taken a number since. */
  lemma OutdatedIff(h: HashFn, s: State, a: nat, more: seq<Action>)
    requires a < |s.actors| && s.actors[a].ReadSequence?
    requires After(h, PrepareStep(s, a), more).jobSequence == PrepareStep(s, a).jobSequence
    ensures var read, t := PrepareStep(s, a), After(h, PrepareStep(s, a), more);
            && read.jobSequence == read.sequence
            && (t.jobSequence < t.sequence <==> NumbersTaken(h, read, more) > 0)
            && (t.jobSequence == t.sequence <==> NumbersTaken(h, read, more) == 0)
  {
    SequenceCounts(h, PrepareStep(s, a), more);
  }

  // ---------------------------------------------------------------------------------------------
  // A start that no other cancel overlaps
  // ---------------------------------------------------------------------------------------------

  predicate InCancel(pc: Pc) {
    OnMutex(pc) || Stopping(pc)
  }

  ghost predicate OthersOutsideCancel(s: State, a: nat) {
    forall b :: 0 <= b < |s.actors| && b != a ==> !InCancel(s.actors[b])
  }

  /** Only a worker that has run into its deadline has raised the stop flag. */
  ghost predicate StoppedByTimeout(s: State) {
    s.stop ==> Announced(s.created, Timeout, s.jobSequence)
  }

  /** The `start` of thread a is under way: the stop flag is down once it has been lowered, unless the job times
      out, and the number is current once it has been read. */
  ghost predicate OnTrack(s: State, a: nat, request: Request) {
    && a < |s.actors| && s.starter == Some(a) && s.request == request
    && (s.actors[a].ResetFound? || s.actors[a].ReadSequence? ==> !s.stop)
    && (OnGate(s.actors[a]) || s.actors[a].Spawning? ==> s.jobSequence == s.sequence && StoppedByTimeout(s))
  }

  /** The `start` has returned, with its job current and all its workers created. */
  ghost predicate Started(s: State, request: Request) {
    && s.starter == None && s.job == request.job && |s.workers| == Threads(request)
    && s.jobSequence == s.sequence && StoppedByTimeout(s)
  }

  lemma CancelOnTrack(s: State, a: nat, request: Request)
    requires OnTrack(s, a, request)
    ensures OnMutex(s.actors[a]) ==> OnTrack(MutexStep(s, a), a, request)
    ensures Stopping(s.actors[a]) ==> OnTrack(StopStep(s, a), a, request)
  {
  }

  lemma StartOnTrack(s: State, a: nat, request: Request)
    requires OnTrack(s, a, request) && MadeOk(s)
    ensures Preparing(s.actors[a]) ==> OnTrack(PrepareStep(s, a), a, request)
    ensures s.actors[a].WantSpawn? ==> OnTrack(GateStep(s, a), a, request)
    ensures s.actors[a].LeaveStart? ==> Started(GateStep(s, a), request)
    ensures s.actors[a].Spawning? ==> OnTrack(SpawnStep(s, a), a, request)
  {
  }

  lemma OwnStepOnTrack(s: State, a: nat, request: Request)
    requires OnTrack(s, a, request) && Calling(s.actors[a]) && MadeOk(s)
    ensures OnTrack(ActorStep(s, a), a, request) || Started(ActorStep(s, a), request)
  {
    CancelOnTrack(s, a, request);
    StartOnTrack(s, a, request);
  }

  /** A step of anybody else that touches neither the control of the actors nor the job. */
  lemma OthersKeepTrack(s: State, s': State, a: nat, request: Request)
    requires OnTrack(s, a, request) && |s'.actors| == |s.actors| && s'.actors[a] == s.actors[a]
    requires s'.starter == s.starter && s'.request == s.request
    requires s'.jobSequence == s.jobSequence && s'.sequence == s.sequence
    requires s'.stop == s.stop && s'.created == s.created
    ensures OnTrack(s', a, request)
  {
  }

  lemma WorkOnTrack(h: HashFn, s: State, a: nat, request: Request, i: nat)
    requires OnTrack(s, a, request) && StarterOk(s) && i < |s.workers| && WorkerReady(s, i)
    requires WorkerOk(h, s, i) && Settled(h, s, i)
    ensures OnTrack(WorkerStep(h, s, i), a, request)
  {
    var s' := WorkerStep(h, s, i);
    WorkerStepIsLocal(h, s, i);
    WorkAddsNews(h, s, i);
    if Announced(s.created, Timeout, s.jobSequence) {
      AnnouncedStays(s, s', Timeout, s.jobSequence);
    }
    StopsAfterAnnouncing(h, s, i);
  }

  lemma StopsAfterAnnouncing(h: HashFn, s: State, i: nat)
    requires i < |s.workers| && WorkerReady(s, i) && WorkerOk(h, s, i) && Settled(h, s, i)
    ensures WorkerStep(h, s, i).stop && !s.stop ==> Announced(s.created, Timeout, s.jobSequence)
  {
  }

  lemma OnlyStarterSteps(s: State, a: nat, c: nat)
    requires LockInv(s) && s.starter == Some(a) && OthersOutsideCancel(s, a) && Enabled(s, Step(c))
    ensures c == a
  {
    assert ActorOk(s, c);
  }

  lemma OnTrackStep(h: HashFn, s: State, a: nat, request: Request, b: Action)
    requires Inv(h, s) && Complete(h, s) && OnTrack(s, a, request) && OthersOutsideCancel(s, a) && Enabled(s, b)
    ensures OnTrack(Apply(h, s, b), a, request) || Started(Apply(h, s, b), request)
  {
    var s' := Apply(h, s, b);
    assert Calling(s.actors[a]) by {
      assert ActorOk(s, a);
    }
    match b {
      case Step(c) =>
        OnlyStarterSteps(s, a, c);
        OwnStepOnTrack(s, a, request);
      case Work(i) =>
        assert WorkerOk(h, s, i) && Stored(s, i) && Settled(h, s, i);
        WorkOnTrack(h, s, a, request, i);
      case Listen =>
        EventStepIsLocal(s);
        OthersKeepTrack(s, EventStep(s), a, request);
      case Read(c) =>
        ReadIsLocal(s, c);
        OthersKeepTrack(s, ReadStep(s, c), a, request);
      case _ => OthersKeepTrack(s, s', a, request);
    }
  }

  /** Throughout the schedule thread a is in its `start`, and no other thread is in `cancel`. */
  ghost predicate Undisturbed(h: HashFn, s: State, more: seq<Action>, a: nat) {
    forall k :: 0 <= k < |more| ==>
      After(h, s, more[..k]).starter == Some(a) && OthersOutsideCancel(After(h, s, more[..k]), a)
  }

  lemma {:induction false} StartRuns(h: HashFn, s: State, more: seq<Action>, a: nat, request: Request)
    requires Inv(h, s) && Complete(h, s) && OnTrack(s, a, request) && Undisturbed(h, s, more, a)
    ensures var t := After(h, s, more);
            Inv(h, t) && Complete(h, t) && (OnTrack(t, a, request) || Started(t, request))
  {
    if more != [] {
      var k := |more| - 1;
      forall i | 0 <= i < k ensures more[..k][..i] == more[..i] {
      }
      assert Undisturbed(h, s, more[..k], a);
      StartRuns(h, s, more[..k], a, request);
      var before := After(h, s, more[..k]);
      assert before.starter == Some(a) && OthersOutsideCancel(before, a);
      if Enabled(before, more[k]) {
        StepKeepsInv(h, before, more[k]);
        StepKeepsComplete(h, before, more[k]);
        OnTrackStep(h, before, a, request, more[k]);
      }
    }
  }

  /** What a caller can rely on: if no other thread is inside `cancel` between the call of `start` and its
      return, then when `start` returns all workers of the request exist, the stop flag is down unless the job has
      timed out, and the job is current; and as long as no other job replaces it, it stays current exactly until
      the next `cancel` takes a number. */
  lemma StartedJobIsCurrent(h: HashFn, s: State, a: nat, request: Request, more: seq<Action>, later: seq<Action>)
    requires Reachable(h, s) && Enabled(s, BeginStart(a, request))
    requires Undisturbed(h, Apply(h, s, BeginStart(a, request)), more, a)
    requires After(h, Apply(h, s, BeginStart(a, request)), more).starter == None
    ensures var t := After(h, Apply(h, s, BeginStart(a, request)), more);
            && t.job == request.job && t.jobSequence == t.sequence
            && (t.stop ==> exists e :: e in t.created && e.kind.Timeout? && e.sequence == t.sequence)
            && |t.workers| == (if request.threadCount == 0 then request.hardware else request.threadCount)
            && var u := After(h, t, later);
            (u.jobSequence == t.jobSequence ==>
               (u.jobSequence == u.sequence <==> NumbersTaken(h, t, later) == 0))
  {
    ReachableComplete(h, s);
    var begun := Apply(h, s, BeginStart(a, request));
    StepKeepsInv(h, s, BeginStart(a, request));
    StepKeepsComplete(h, s, BeginStart(a, request));
    StartRuns(h, begun, more, a, request);
    SequenceCounts(h, After(h, begun, more), later);
  }
}
