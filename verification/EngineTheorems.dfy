/** What the invariants say about whole runs of the hash engine. */
module EngineTheorems {
  import opened Basics
  import opened EngineSteps
  import opened EngineLocks
  import opened EngineSafety

  /** A slot whose lock is free has a cache whose key is the recorded seed hash. */
  lemma FreeSlotAgrees(e: Env, n: nat, schedule: seq<Action>, i: nat)
    requires i < 2
    ensures var s := After(e, Initial(n), schedule);
            |s.slots| == |s.locks.slots| == 2
            && (s.locks.slots[i].None? && s.slots[i].cache.Some? ==>
                  s.slots[i].cache.value < |s.caches|
                  && s.caches[s.slots[i].cache.value].key == Some(s.slots[i].hash))
  {
    AlwaysOk(e, n, schedule);
    assert i == 0 || i == 1;
  }

  predicate RefillOf(log: seq<Event>, k: nat, slot: nat) {
    k < |log| && log[k].Refilled? && log[k].slot == slot
  }

  /** Event k is the last refill of a slot strictly between two positions of the log. */
  ghost predicate LastRefill(log: seq<Event>, from: nat, k: nat, end: nat, slot: nat) {
    from < k < end && RefillOf(log, k, slot) && forall l :: k < l < end ==> !RefillOf(log, l, slot)
  }

  /** Whether the slot is left with this key: its last refill, if any, was for that key. */
  ghost predicate LeftWith(log: seq<Event>, from: nat, end: nat, slot: nat, key: Seed) {
    forall k: nat :: LastRefill(log, from, k, end, slot) ==> log[k].seed == key
  }

  lemma {:induction false} KeyIsOfLastRefill(log: seq<Event>, from: nat, end: nat, slot: nat, key: Seed)
    requires end <= |log|
    ensures KeyAfter(log, from, end, slot, key) == key <==> LeftWith(log, from, end, slot, key)
  {
    if end > from + 1 {
      if RefillOf(log, end - 1, slot) {
        assert LastRefill(log, from, end - 1, end, slot);
      } else {
        KeyIsOfLastRefill(log, from, end - 1, slot, key);
        forall k: nat ensures LastRefill(log, from, k, end, slot) == LastRefill(log, from, k, end - 1, slot) {
        }
      }
    }
  }

  /** A call that is still an alt call after slot selection hashes with its own seed. Any other call does
      exactly when the last refill of its slot between its unlock and its hash, if there was one, was for
      the same seed; otherwise it hashes over a cache with another key. */
  lemma HashUsesRequestedSeed(e: Env, n: nat, schedule: seq<Action>, j: nat) returns (unlock: nat)
    requires j < |After(e, Initial(n), schedule).log|
    requires After(e, Initial(n), schedule).log[j].Hashed?
    requires !After(e, Initial(n), schedule).log[j].mined
    ensures var log := After(e, Initial(n), schedule).log;
            log[j].alt ==> log[j].source == Key(log[j].call.seedHash)
    ensures var log := After(e, Initial(n), schedule).log;
            !log[j].alt ==>
              && unlock < j && log[unlock] == Unlocked(log[j].thread, log[j].slot)
              && (log[j].source == Key(log[j].call.seedHash) <==>
                    LeftWith(log, unlock, j, log[j].slot, log[j].call.seedHash))
              && (log[j].source == Key(log[j].call.seedHash) || log[j].source == Disturbed)
              && (forall k :: unlock < k < j ==> log[k].thread != log[j].thread)
  {
    AlwaysOk(e, n, schedule);
    var log := After(e, Initial(n), schedule).log;
    assert EventOk(log, j);
    unlock := log[j].mark;
    if !log[j].alt {
      KeyIsOfLastRefill(log, unlock, j, log[j].slot, log[j].call.seedHash);
    }
  }

  predicate LightAction(a: Action) {
    a.Begin? && a.op.SlowHash? ==> a.op.call.miners == 0
  }

  /** Without full-memory requests no hash is computed by a thread that asked for mining. */
  lemma {:induction false} LightRuns(e: Env, n: nat, schedule: seq<Action>)
    requires forall k :: 0 <= k < |schedule| ==> LightAction(schedule[k])
    ensures Light(After(e, Initial(n), schedule))
  {
    if schedule != [] {
      var k := |schedule| - 1;
      LightRuns(e, n, schedule[..k]);
      var before, a := After(e, Initial(n), schedule[..k]), schedule[k];
      if Enabled(before, a) {
        LightStep(e, before, a);
      }
    }
  }

  ghost predicate Light(s: State) {
    && (forall t :: 0 <= t < |s.threads| ==> !s.threads[t].mined)
    && (forall j :: 0 <= j < |s.log| && s.log[j].Hashed? ==> !s.log[j].mined)
  }

  lemma LightStep(e: Env, s: State, a: Action)
    requires Light(s) && Enabled(s, a) && LightAction(a)
    ensures Light(Apply(e, s, a))
  {
    match a {
      case Advance(t) =>
        DataMoves(e, s, t);
        DataChanges(e, s, t);
      case Begin(t, op) =>
    }
  }

  predicate AllIdle(s: State) {
    forall t :: 0 <= t < |s.threads| ==> s.threads[t].pc.Idle?
  }

  predicate AtRest(s: State) {
    AllIdle(s) && s.locks == Locks(None, [None, None], None)
  }

  /** The steps that operations take in a schedule. */
  function StepsTaken(e: Env, s: State, more: seq<Action>): nat {
    if more == [] then 0
    else
      var k := |more| - 1;
      StepsTaken(e, s, more[..k]) + (if more[k].Advance? && Enabled(After(e, s, more[..k]), more[k]) then 1 else 0)
  }

  lemma {:induction false} StepsUseUpRemainder(e: Env, s: State, more: seq<Action>)
    requires Inv(s) && forall k :: 0 <= k < |more| ==> more[k].Advance?
    ensures Inv(After(e, s, more))
    ensures StepsTaken(e, s, more) + TotalRemaining(After(e, s, more).threads) <= TotalRemaining(s.threads)
  {
    if more != [] {
      var k := |more| - 1;
      StepsUseUpRemainder(e, s, more[..k]);
      var before := After(e, s, more[..k]);
      assert more[k].Advance?;
      if Enabled(before, more[k]) {
        AdvanceOk(e, before, more[k].thread);
        StepsAreBounded(e, before, more[k].thread);
      }
    }
  }

  ghost predicate Stuck(s: State) {
    forall t: nat :: !Enabled(s, Advance(t))
  }

  lemma StuckIsAtRest(s: State)
    requires Inv(s) && Stuck(s)
    ensures AtRest(s)
  {
    if !AllIdle(s) {
      var t :| 0 <= t < |s.threads| && !s.threads[t].pc.Idle?;
      InvIsShaped(s);
      var u := SomeoneCanMove(s, t);
      assert false;
    }
    IdleHoldsNothing(s);
  }

  /** Once no new operation begins, every run, in whatever order the threads move, has at most as many steps
      as the operations had left; and when none can move, all have finished and no mutex is held. */
  lemma OperationsFinish(e: Env, n: nat, schedule: seq<Action>, more: seq<Action>)
    requires forall k :: 0 <= k < |more| ==> more[k].Advance?
    ensures var s, t := After(e, Initial(n), schedule), After(e, After(e, Initial(n), schedule), more);
            StepsTaken(e, s, more) <= TotalRemaining(s.threads) && (Stuck(t) ==> AtRest(t))
  {
    AlwaysOk(e, n, schedule);
    var s := After(e, Initial(n), schedule);
    StepsUseUpRemainder(e, s, more);
    if Stuck(After(e, s, more)) {
      StuckIsAtRest(After(e, s, more));
    }
  }

  predicate Active(s: State, owner: Option<nat>) {
    owner.Some? && owner.value < |s.threads| && !s.threads[owner.value].pc.Idle?
  }

  lemma IdleHoldsNothing(s: State)
    requires LockInv(s.threads, s.locks) && AllIdle(s)
    ensures s.locks == Locks(None, [None, None], None)
  {
    assert SlotOk(s.threads, s.locks.slots[0], 0) && SlotOk(s.threads, s.locks.slots[1], 1);
    assert !Active(s, s.locks.global) && !Active(s, s.locks.dataset);
    assert !Active(s, s.locks.slots[0]) && !Active(s, s.locks.slots[1]);
    assert s.locks.global == None;
    assert s.locks.dataset == None;
    assert s.locks.slots[0] == None;
    assert s.locks.slots[1] == None;
    assert s.locks.slots == [s.locks.slots[0], s.locks.slots[1]];
  }

  lemma InvIsShaped(s: State)
    requires Inv(s)
    ensures Shaped(s)
  {
    forall t | 0 <= t < |s.threads|
      ensures Ready(s, t)
    {
      assert Kept(s, t);
    }
  }
}
