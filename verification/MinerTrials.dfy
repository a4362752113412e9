/** The nonces that the workers of all jobs actually hash in a run, and that none is tried twice for a job
    before a counter wraps (src/qrandomx/qrxminer.cpp:183-200 and 235). */
module MinerTrials {
  import opened Basics
  import opened NonceSearch
  import opened MinerSteps
  import opened MinerLocks
  import opened MinerSafety

  /** One hash: whose, for which job, and the nonce found in the hashed buffer. */
  datatype Trial = Trial(sequence: nat, threads: Uint32, worker: nat, tries: nat, nonce: nat)

  predicate Hashes(s: State, a: Action) {
    a.Work? && a.i < |s.workers| && s.workers[a.i].pc.Hashing? && HasRoom(s.workers[a.i].buffer, s.job.offset)
  }

  function TrialOf(s: State, i: nat): Trial
    requires i < |s.workers| && HasRoom(s.workers[i].buffer, s.job.offset)
  {
    var w := s.workers[i];
    Trial(w.sequence, s.threads, i, w.tries, NonceOf(w.buffer, s.job.offset))
  }

  /** The hashes computed in a schedule, in order. */
  function Tried(h: HashFn, s: State, schedule: seq<Action>): seq<Trial> {
    if schedule == [] then []
    else
      var k := |schedule| - 1;
      var before := After(h, s, schedule[..k]);
      Tried(h, s, schedule[..k]) + (if Hashes(before, schedule[k]) then [TrialOf(before, schedule[k].i)] else [])
  }

  // ---------------------------------------------------------------------------------------------
  // The invariant
  // ---------------------------------------------------------------------------------------------

  /** The worker has hashed its k-th nonce. */
  predicate HasTried(w: Worker, k: nat) {
    k < w.tries || (k == w.tries && (Hashed(w.pc) || w.pc.Exiting? || w.pc.Done?))
  }

  predicate TrialOk(s: State, r: Trial) {
    && r.nonce == NthNonce(r.worker, Stride(r.threads), r.tries) && r.worker < r.threads
    && r.sequence <= s.jobSequence
    && (Unborn(s) ==> r.sequence < s.jobSequence)
    && (r.sequence == s.jobSequence && !InReset(s) ==>
          && r.threads == s.threads
          && if r.worker < |s.workers| then HasTried(s.workers[r.worker], r.tries) else !MayGrow(s))
  }

  predicate TrialsOk(s: State, trials: seq<Trial>) {
    forall k :: 0 <= k < |trials| ==> TrialOk(s, trials[k])
  }

  predicate Different(q: Trial, r: Trial) {
    q.sequence == r.sequence ==> q.threads == r.threads && (q.worker != r.worker || q.tries != r.tries)
  }

  predicate TrialsDiffer(trials: seq<Trial>) {
    forall j, k :: 0 <= j < k < |trials| ==> Different(trials[j], trials[k])
  }

  // ---------------------------------------------------------------------------------------------
  // Steps
  // ---------------------------------------------------------------------------------------------

  lemma QuietTrial(s: State, s': State, r: Trial)
    requires Quiet(s, s') && TrialOk(s, r) && (MayGrow(s') ==> MayGrow(s) || Unborn(s'))
    ensures TrialOk(s', r)
  {
  }

  lemma MutexTrial(s: State, a: nat, r: Trial)
    requires Shapes(s) && a < |s.actors| && ActorOk(s, a) && OnMutex(s.actors[a]) && TrialOk(s, r)
    ensures TrialOk(MutexStep(s, a), r)
  {
    MutexIsQuiet(s, a);
    QuietTrial(s, MutexStep(s, a), r);
  }

  lemma GateTrial(s: State, a: nat, r: Trial)
    requires Shapes(s) && a < |s.actors| && ActorOk(s, a) && OnGate(s.actors[a]) && StarterOk(s) && TrialOk(s, r)
    ensures TrialOk(GateStep(s, a), r)
  {
    GateIsQuiet(s, a);
    QuietTrial(s, GateStep(s, a), r);
  }

  lemma StopTrial(s: State, a: nat, r: Trial)
    requires Shapes(s) && a < |s.actors| && ActorOk(s, a) && Stopping(s.actors[a])
    requires StarterOk(s) && StarterApart(s, a) && TrialOk(s, r)
    ensures TrialOk(StopStep(s, a), r)
  {
    if !s.actors[a].Clear? {
      StopIsQuiet(s, a);
      QuietTrial(s, StopStep(s, a), r);
    }
  }

  lemma PrepareTrial(s: State, a: nat, r: Trial)
    requires a < |s.actors| && ActorOk(s, a) && Preparing(s.actors[a]) && StarterOk(s) && TrialOk(s, r)
    ensures TrialOk(PrepareStep(s, a), r)
  {
  }

  lemma SpawnTrial(s: State, a: nat, r: Trial)
    requires Shapes(s) && a < |s.actors| && ActorOk(s, a) && s.actors[a].Spawning? && StarterOk(s) && TrialOk(s, r)
    ensures TrialOk(SpawnStep(s, a), r)
  {
    SpawnChangesLittle(s, a);
  }

  lemma ActorTrial(s: State, a: nat, r: Trial)
    requires LockInv(s) && StarterOk(s) && a < |s.actors| && Calling(s.actors[a]) && TrialOk(s, r)
    ensures TrialOk(ActorStep(s, a), r)
  {
    assert ActorOk(s, a);
    StarterIsApart(s, a);
    if OnMutex(s.actors[a]) {
      MutexTrial(s, a, r);
    } else if Stopping(s.actors[a]) {
      StopTrial(s, a, r);
    } else if Preparing(s.actors[a]) {
      PrepareTrial(s, a, r);
    } else if OnGate(s.actors[a]) {
      GateTrial(s, a, r);
    } else {
      SpawnTrial(s, a, r);
    }
  }

  lemma SearchNotBack(h: HashFn, s: State, i: nat, k: nat)
    requires i < |s.workers| && Searching(s.workers[i].pc) && WorkerReady(s, i)
    requires HasTried(s.workers[i], k)
    ensures |SearchStep(h, s, i).workers| == |s.workers| && HasTried(SearchStep(h, s, i).workers[i], k)
  {
  }

  lemma PublishingNotBack(s: State, i: nat, k: nat)
    requires i < |s.workers| && Publishes(s.workers[i].pc) && HasTried(s.workers[i], k)
    ensures |SolutionStep(s, i).workers| == |s.workers| && HasTried(SolutionStep(s, i).workers[i], k)
  {
    SolutionMovesOn(s, i);
  }

  lemma WorkTrial(h: HashFn, s: State, i: nat, r: Trial)
    requires i < |s.workers| && WorkerReady(s, i) && TrialOk(s, r)
    ensures TrialOk(WorkerStep(h, s, i), r)
  {
    WorkerStepIsLocal(h, s, i);
    if r.worker == i && HasTried(s.workers[i], r.tries) {
      if Searching(s.workers[i].pc) {
        SearchNotBack(h, s, i, r.tries);
      } else if Publishes(s.workers[i].pc) {
        PublishingNotBack(s, i, r.tries);
      }
    }
  }

  lemma StepTrial(h: HashFn, s: State, a: Action, r: Trial)
    requires Inv(h, s) && Enabled(s, a) && TrialOk(s, r)
    ensures TrialOk(Apply(h, s, a), r)
  {
    match a {
      case Step(b) => ActorTrial(s, b, r);
      case Work(i) => WorkTrial(h, s, i, r);
      case Listen =>
        EventStepIsQuiet(s);
        QuietTrial(s, EventStep(s), r);
      case Read(b) =>
        ReadIsLocal(s, b);
        assert ActorOk(s, b);
        ReadIsQuiet(s, ReadStep(s, b), b);
        QuietTrial(s, ReadStep(s, b), r);
      case _ =>
        OutsideTrial(h, s, a, r);
    }
  }

  lemma OutsideTrial(h: HashFn, s: State, a: Action, r: Trial)
    requires Inv(h, s) && Enabled(s, a) && TrialOk(s, r)
    requires a.BeginCancel? || a.BeginStart? || a.BeginRead? || a.Return? || a.Expire?
    ensures TrialOk(Apply(h, s, a), r)
  {
    if !a.Return? && !a.Expire? {
      assert ActorOk(s, a.a);
    }
  }

  /** A new hash is sound and different from all earlier ones. */
  lemma NewTrial(h: HashFn, s: State, i: nat)
    requires Inv(h, s) && Hashes(s, Work(i))
    ensures TrialOk(WorkerStep(h, s, i), TrialOf(s, i))
  {
    assert WorkerOk(h, s, i) && Stored(s, i);
    NonceRoundTrip(s.job.input, s.job.offset, s.workers[i].nonce, 0);
    WorkerStepIsLocal(h, s, i);
  }

  lemma NewTrialDiffers(h: HashFn, s: State, i: nat, q: Trial)
    requires Inv(h, s) && Hashes(s, Work(i)) && TrialOk(s, q)
    ensures Different(q, TrialOf(s, i))
  {
    assert WorkerOk(h, s, i) && Stored(s, i);
  }

  lemma {:induction false} TrialsRun(h: HashFn, s: State, schedule: seq<Action>)
    requires Inv(h, s)
    ensures Inv(h, After(h, s, schedule))
    ensures TrialsOk(After(h, s, schedule), Tried(h, s, schedule)) && TrialsDiffer(Tried(h, s, schedule))
  {
    if schedule != [] {
      var k := |schedule| - 1;
      TrialsRun(h, s, schedule[..k]);
      TrialsStep(h, After(h, s, schedule[..k]), schedule[k], Tried(h, s, schedule[..k]));
    }
  }

  lemma TrialsStep(h: HashFn, s: State, a: Action, trials: seq<Trial>)
    requires Inv(h, s) && TrialsOk(s, trials) && TrialsDiffer(trials)
    ensures var s' := if Enabled(s, a) then Apply(h, s, a) else s;
            var more := trials + if Hashes(s, a) then [TrialOf(s, a.i)] else [];
            Inv(h, s') && TrialsOk(s', more) && TrialsDiffer(more)
  {
    if Enabled(s, a) {
      StepKeepsInv(h, s, a);
      forall k | 0 <= k < |trials| ensures TrialOk(Apply(h, s, a), trials[k]) {
        StepTrial(h, s, a, trials[k]);
      }
    }
    if Hashes(s, a) {
      NewTrial(h, s, a.i);
      forall k | 0 <= k < |trials| ensures Different(trials[k], TrialOf(s, a.i)) {
        NewTrialDiffers(h, s, a.i, trials[k]);
      }
    }
  }

  /** The trial comes before the 32-bit counter of its worker wraps. */
  predicate BeforeWrap(r: Trial) {
    r.worker + r.tries * r.threads < TWO_32
  }

  /** In every run, any two hashes for one job of 1 to 255 threads, by one worker or by two, have different
      nonces in their input, as long as neither comes after a wrap. */
  lemma NoNonceHashedTwice(h: HashFn, callers: nat, request: Request, schedule: seq<Action>, j: nat, k: nat)
    requires WellFormed(request.job)
    requires j < k < |Tried(h, Initial(callers, request), schedule)|
    ensures var trials := Tried(h, Initial(callers, request), schedule);
            var q, r := trials[j], trials[k];
            q.sequence == r.sequence && 1 <= q.threads <= 255 && BeforeWrap(q) && BeforeWrap(r) ==> q.nonce != r.nonce
  {
    InitialOk(h, callers, request);
    TrialsRun(h, Initial(callers, request), schedule);
    var trials := Tried(h, Initial(callers, request), schedule);
    var q, r := trials[j], trials[k];
    assert Different(q, r);
    assert TrialOk(After(h, Initial(callers, request), schedule), q);
    assert TrialOk(After(h, Initial(callers, request), schedule), r);
    if q.sequence == r.sequence && 1 <= q.threads <= 255 && BeforeWrap(q) && BeforeWrap(r) {
      DistinctTries(q.threads, q.worker, q.tries, r.worker, r.tries);
    }
  }
}
