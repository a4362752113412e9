/** Exactly which callers may hash in parallel (src/qrandomx/rx-slow-hash.c:278-281): those for which no
    other thread wants another seed in the same slot. What a caller has to look at is known before the
    calls: the two heights, the seed and the alt flag of each. */
module EngineParallel {
  import opened Basics
  import opened SeedEpochs
  import opened EngineSteps
  import opened EngineLocks
  import opened EngineTheorems
  import opened EngineSharing

  /** What each thread may call: light calls whose choice is fixed. */
  ghost predicate FixedCalls(calls: seq<iset<Call>>) {
    forall t, c :: 0 <= t < |calls| && c in calls[t] ==> Fixed(c) && c.miners == 0
  }

  /** Each thread makes its own calls, as often as it likes; anything but calls is unrestricted. */
  ghost predicate CallAction(a: Action, calls: seq<iset<Call>>) {
    a.thread < |calls| && (a.Begin? && a.op.SlowHash? ==> a.op.call in calls[a.thread])
  }

  ghost predicate Runs(schedule: seq<Action>, calls: seq<iset<Call>>) {
    forall k :: 0 <= k < |schedule| ==> CallAction(schedule[k], calls)
  }

  /** Some hash of the thread did not use the seed it asked for. */
  ghost predicate Misses(log: seq<Event>, t: nat) {
    exists j :: 0 <= j < |log| && log[j].Hashed? && log[j].thread == t && log[j].source != Key(log[j].call.seedHash)
  }

  /** The first call hashes without its slot lock, and the second wants another seed in that slot. */
  predicate Conflicting(a: Call, b: Call) {
    !ChoiceOf(a).alt && ChoiceOf(a).slot == ChoiceOf(b).slot && a.seedHash != b.seedHash
  }

  /** A call of the thread conflicts with a call of another thread. */
  ghost predicate SomeConflict(calls: seq<iset<Call>>, t: nat)
    requires t < |calls|
  {
    exists c, u, d :: c in calls[t] && 0 <= u < |calls| && u != t && d in calls[u] && Conflicting(c, d)
  }

  ghost predicate SomeRunMisses(e: Env, calls: seq<iset<Call>>, t: nat) {
    exists schedule :: Runs(schedule, calls) && Misses(After(e, Initial(|calls|), schedule).log, t)
  }

  // ---------------------------------------------------------------------------------------------
  // Without a conflict every run is right
  // ---------------------------------------------------------------------------------------------

  ghost predicate CallsHeld(s: State, calls: seq<iset<Call>>) {
    |s.threads| == |calls| && forall t :: 0 <= t < |calls| && InCall(s.threads[t].pc) ==> s.threads[t].call in calls[t]
  }

  lemma CallsStep(e: Env, s: State, a: Action, calls: seq<iset<Call>>)
    requires CallsHeld(s, calls) && CallAction(a, calls) && Enabled(s, a)
    ensures CallsHeld(Apply(e, s, a), calls)
  {
    Moves(e, s, a);
  }

  lemma {:induction false} CallsRun(e: Env, calls: seq<iset<Call>>, schedule: seq<Action>)
    requires Runs(schedule, calls)
    ensures CallsHeld(After(e, Initial(|calls|), schedule), calls)
  {
    if schedule != [] {
      var k := |schedule| - 1;
      CallsRun(e, calls, schedule[..k]);
      var before := After(e, Initial(|calls|), schedule[..k]);
      assert CallAction(schedule[k], calls);
      if Enabled(before, schedule[k]) {
        CallsStep(e, before, schedule[k], calls);
      }
    }
  }

  lemma NoConflictNoClash(s: State, calls: seq<iset<Call>>, t: nat)
    requires FixedCalls(calls) && CallsHeld(s, calls) && ChoicesOk(s) && t < |calls| && !SomeConflict(calls, t)
    ensures Unclashed(s, t)
  {
    forall u | 0 <= u < |s.threads| && u != t ensures !Clash(s.threads[t], s.threads[u]) {
      assert ChoiceOk(s.threads[t]) && ChoiceOk(s.threads[u]);
      assert Chosen(s.threads[t].pc) && Chosen(s.threads[u].pc) ==>
        !Conflicting(s.threads[t].call, s.threads[u].call);
    }
  }

  lemma NoConflictNoMiss(e: Env, calls: seq<iset<Call>>, t: nat, schedule: seq<Action>)
    requires FixedCalls(calls) && t < |calls| && !SomeConflict(calls, t) && Runs(schedule, calls)
    ensures !Misses(After(e, Initial(|calls|), schedule).log, t)
  {
    forall k | 0 <= k <= |schedule| ensures Unclashed(After(e, Initial(|calls|), schedule[..k]), t) {
      CallsRun(e, calls, schedule[..k]);
      ChoicesRun(e, |calls|, schedule[..k]);
      NoConflictNoClash(After(e, Initial(|calls|), schedule[..k]), calls, t);
    }
    forall k | 0 <= k < |schedule| ensures LightAction(schedule[k]) {
      assert CallAction(schedule[k], calls);
    }
    LightRuns(e, |calls|, schedule);
    RunsStayRight(e, |calls|, schedule, t);
  }

  // ---------------------------------------------------------------------------------------------
  // With a conflict some run is wrong
  // ---------------------------------------------------------------------------------------------

  ghost predicate Reached(e: Env, calls: seq<iset<Call>>, s: State) {
    exists schedule :: Runs(schedule, calls) && s == After(e, Initial(|calls|), schedule)
  }

  lemma Do(e: Env, calls: seq<iset<Call>>, s: State, a: Action) returns (s': State)
    requires Reached(e, calls, s) && Enabled(s, a) && CallAction(a, calls)
    ensures Reached(e, calls, s') && s' == Apply(e, s, a)
  {
    var schedule :| Runs(schedule, calls) && s == After(e, Initial(|calls|), schedule);
    var longer := schedule + [a];
    assert longer[..|longer| - 1] == schedule;
    assert Runs(longer, calls);
    s' := Apply(e, s, a);
    assert s' == After(e, Initial(|calls|), longer);
  }

  lemma DoEnter(e: Env, calls: seq<iset<Call>>, s: State, t: nat) returns (s': State)
    requires Reached(e, calls, s) && t < |calls| && Enabled(s, Advance(t)) && Entering(s.threads[t].pc)
    ensures Reached(e, calls, s')
    ensures s' == EnterStep(s, t).(locks := LockEffect(s.locks, t, s.threads[t].pc, s.threads[t].choice.slot))
  {
    s' := Do(e, calls, s, Advance(t));
  }

  lemma DoRefill(e: Env, calls: seq<iset<Call>>, s: State, t: nat) returns (s': State)
    requires Reached(e, calls, s) && t < |calls| && Enabled(s, Advance(t)) && Refilling(s.threads[t].pc)
    ensures Reached(e, calls, s')
    ensures s' == RefillStep(s, t)
  {
    s' := Do(e, calls, s, Advance(t));
  }

  /** A fresh thread in its call, at a program counter. */
  function Calling(call: Call, pc: Pc): Thread {
    IDLE_THREAD.(pc := pc, call := call, choice := ChoiceOf(call))
  }

  /** A fresh thread goes through the slot choice with nobody else holding a lock. */
  lemma Enters(e: Env, calls: seq<iset<Call>>, s: State, t: nat, call: Call) returns (s': State)
    requires Reached(e, calls, s) && FixedCalls(calls) && t < |calls| && call in calls[t] && Ready(s, t)
    requires s.threads[t] == IDLE_THREAD && s.locks == FREE
    ensures Reached(e, calls, s')
    ensures s' == s.(threads := s.threads[t := Calling(call, LoadCache)],
                     locks := Holding(t, ChoiceOf(call).slot))
  {
    s' := Do(e, calls, s, Begin(t, SlowHash(call)));
    assert s' == s.(threads := s.threads[t := IDLE_THREAD.(pc := WantGlobal, call := call)]);
    s' := DoEnter(e, calls, s', t);
    assert s' == s.(threads := s.threads[t := IDLE_THREAD.(pc := Select, call := call)],
                    locks := Locks(Some(t), [None, None], None));
    ChoiceIsFixed(call, s.slots[Toggle(call.mainHeight)].hash);
    s' := DoEnter(e, calls, s', t);
    assert s' == s.(threads := s.threads[t := Calling(call, WantSlot)], locks := Locks(Some(t), [None, None], None));
    s' := TakesSlot(e, calls, s, s', t, call);
  }

  lemma TakesSlot(e: Env, calls: seq<iset<Call>>, base: State, s: State, t: nat, call: Call) returns (s': State)
    requires Reached(e, calls, s) && t < |calls| && Ready(base, t)
    requires s == base.(threads := base.threads[t := Calling(call, WantSlot)],
                        locks := Locks(Some(t), [None, None], None))
    requires base.threads[t] == IDLE_THREAD
    ensures Reached(e, calls, s')
    ensures s' == base.(threads := base.threads[t := Calling(call, LoadCache)],
                        locks := Holding(t, ChoiceOf(call).slot))
  {
    var i := ChoiceOf(call).slot;
    s' := DoEnter(e, calls, s, t);
    assert s' == base.(threads := base.threads[t := Calling(call, DropGlobal)],
                       locks := Locks(Some(t), [None, None][i := Some(t)], None));
    s' := DoEnter(e, calls, s', t);
  }

  /** The thread refills its slot, whose cache is the first one or still to be allocated. */
  lemma Refills(e: Env, calls: seq<iset<Call>>, s: State, t: nat, call: Call) returns (s': State)
    requires Reached(e, calls, s) && t < |calls| && Ready(s, t)
    requires s.threads[t] == Calling(call, LoadCache)
    requires !SlotMatches(SlotOf(s, t), call)
    requires if SlotOf(s, t).cache.Some? then SlotOf(s, t).cache == Some(0) && |s.caches| == 1 else s.caches == []
    ensures Reached(e, calls, s')
    ensures |s'.caches| == 1 && s'.caches[0].key == Some(call.seedHash)
    ensures s' == s.(threads := s.threads[t := Calling(call, StoreCache)], caches := s'.caches, log := s'.log)
  {
    s' := DoEnter(e, calls, s, t);
    assert s' == s.(threads := s.threads[t := Calling(call, CheckSeed)], caches := s'.caches) && |s'.caches| == 1;
    var loaded := s';
    s' := DoRefill(e, calls, s', t);
    assert s' == loaded.(threads := s.threads[t := Calling(call, InitCache)]);
    s' := DoRefill(e, calls, s', t);
  }

  lemma StoresCache(e: Env, calls: seq<iset<Call>>, s: State, t: nat, call: Call) returns (s': State)
    requires Reached(e, calls, s) && t < |calls| && Ready(s, t)
    requires s.threads[t] == Calling(call, StoreCache)
    ensures Reached(e, calls, s')
    ensures s' == s.(threads := s.threads[t := Calling(call, StoreHeight)],
                     slots := s.slots[ChoiceOf(call).slot := SlotOf(s, t).(cache := Some(0))])
  {
    s' := DoRefill(e, calls, s, t);
  }

  lemma StoresHeight(e: Env, calls: seq<iset<Call>>, s: State, t: nat, call: Call) returns (s': State)
    requires Reached(e, calls, s) && t < |calls| && Ready(s, t)
    requires s.threads[t] == Calling(call, StoreHeight)
    ensures Reached(e, calls, s')
    ensures s' == s.(threads := s.threads[t := Calling(call, StoreHash)],
                     slots := s.slots[ChoiceOf(call).slot := SlotOf(s, t).(height := call.seedHeight)])
  {
    s' := DoRefill(e, calls, s, t);
  }

  lemma StoresHash(e: Env, calls: seq<iset<Call>>, s: State, t: nat, call: Call) returns (s': State)
    requires Reached(e, calls, s) && t < |calls| && Ready(s, t)
    requires s.threads[t] == Calling(call, StoreHash)
    ensures Reached(e, calls, s')
    ensures s' == s.(threads := s.threads[t := Calling(call, BindVm)],
                     slots := s.slots[ChoiceOf(call).slot := SlotOf(s, t).(hash := call.seedHash)])
  {
    s' := DoRefill(e, calls, s, t);
  }

  lemma Records(e: Env, calls: seq<iset<Call>>, s: State, t: nat, call: Call) returns (s': State)
    requires Reached(e, calls, s) && t < |calls| && Ready(s, t)
    requires s.threads[t] == Calling(call, StoreCache) && |s.caches| == 1
    ensures Reached(e, calls, s') && Ready(s', t)
    ensures s' == s.(threads := s.threads[t := Calling(call, BindVm)],
                     slots := s.slots[ChoiceOf(call).slot := Slot(call.seedHash, call.seedHeight, Some(0))])
  {
    s' := StoresCache(e, calls, s, t, call);
    s' := StoresHeight(e, calls, s', t, call);
    s' := StoresHash(e, calls, s', t, call);
  }

  /** Binds the machine and drops the slot lock. */
  lemma BindsAndUnlocks(e: Env, calls: seq<iset<Call>>, s: State, t: nat, call: Call) returns (s': State)
    requires Reached(e, calls, s) && FixedCalls(calls) && t < |calls| && call in calls[t] && Ready(s, t)
    requires s.threads[t] == Calling(call, BindVm) && !ChoiceOf(call).alt
    requires SlotOf(s, t).cache == Some(0) && s.locks == Holding(t, ChoiceOf(call).slot)
    ensures Reached(e, calls, s')
    ensures s' == s.(threads := s.threads[t := Calling(call, HashFree).(vm := LightVm(0, s.caches[0].key),
                                                                            mark := |s.log|)],
                     locks := FREE, log := s'.log)
  {
    s' := Do(e, calls, s, Advance(t));
    assert s' == s.(threads := s.threads[t := Calling(call, ReleaseSlot).(vm := LightVm(0, s.caches[0].key))]);
    s' := Do(e, calls, s', Advance(t));
  }

  /** The first caller, alone, up to its hash. */
  lemma FirstCaller(e: Env, calls: seq<iset<Call>>, t: nat, call: Call) returns (s: State)
    requires FixedCalls(calls) && t < |calls| && call in calls[t] && !ChoiceOf(call).alt
    ensures Reached(e, calls, s) && Ready(s, t) && s.locks == FREE && |s.threads| == |calls|
    ensures forall u :: 0 <= u < |calls| && u != t ==> s.threads[u] == IDLE_THREAD
    ensures s.threads[t] == Calling(call, HashFree).(vm := LightVm(0, Some(call.seedHash)), mark := s.threads[t].mark)
    ensures |s.caches| == 1
    ensures var i := ChoiceOf(call).slot;
            s.slots[i] == Slot(call.seedHash, call.seedHeight, Some(0))
  {
    s := Initial(|calls|);
    assert Runs([], calls) && s == After(e, s, []);
    s := Enters(e, calls, s, t, call);
    s := Refills(e, calls, s, t, call);
    s := Records(e, calls, s, t, call);
    s := BindsAndUnlocks(e, calls, s, t, call);
  }

  lemma HashesOverOtherKey(e: Env, calls: seq<iset<Call>>, s: State, t: nat, key: Seed)
    requires Reached(e, calls, s) && t < |calls| && Ready(s, t)
    requires s.threads[t].pc.HashFree? && s.threads[t].vm == LightVm(0, Some(key))
    requires s.caches[0].key != Some(key)
    ensures SomeRunMisses(e, calls, t)
  {
    var n := |s.log|;
    var s' := Do(e, calls, s, Advance(t));
    assert s'.log[n].Hashed? && s'.log[n].thread == t && s'.log[n].source == Disturbed;
    var schedule :| Runs(schedule, calls) && s' == After(e, Initial(|calls|), schedule);
    assert Misses(After(e, Initial(|calls|), schedule).log, t);
  }

  /** Then the second caller refills the slot, and the first one hashes. */
  lemma ConflictMisses(e: Env, calls: seq<iset<Call>>, t: nat, call: Call, u: nat, other: Call)
    requires FixedCalls(calls) && t < |calls| && u < |calls| && t != u && call in calls[t] && other in calls[u]
    requires Conflicting(call, other)
    ensures SomeRunMisses(e, calls, t)
  {
    var s := FirstCaller(e, calls, t, call);
    var first := s.threads[t];
    s := Enters(e, calls, s, u, other);
    s := Refills(e, calls, s, u, other);
    assert s.threads[t] == first;
    HashesOverOtherKey(e, calls, s, t, call.seedHash);
  }

  /** Some interleaving of the calls makes a thread hash with a wrong seed if and only if one of its calls is
      no alt call after slot selection and a call of another thread has its slot and another seed. */
  lemma ParallelHashingIff(e: Env, calls: seq<iset<Call>>, t: nat)
    requires FixedCalls(calls) && t < |calls|
    ensures SomeRunMisses(e, calls, t) <==> SomeConflict(calls, t)
  {
    if SomeConflict(calls, t) {
      var c, u, d :| c in calls[t] && 0 <= u < |calls| && u != t && d in calls[u] && Conflicting(c, d);
      ConflictMisses(e, calls, t, c, u, d);
    } else {
      forall schedule | Runs(schedule, calls) ensures !Misses(After(e, Initial(|calls|), schedule).log, t) {
        NoConflictNoMiss(e, calls, t, schedule);
      }
    }
  }

  /** Adjacent epochs alone are not enough: a call for the seed of its own main height conflicts with every
      call for another seed of the next or the previous epoch that is made an even number of epochs away
      from its own seed, for that call then uses the first one's slot. */
  lemma FarMainHeightConflicts(a: Call, b: Call)
    requires a.seedHeight == SeedHeight(a.mainHeight)
    requires b.seedHeight % EPOCH_BLOCKS == 0 && Abs(a.seedHeight - b.seedHeight) == EPOCH_BLOCKS
    requires var distance := (SeedHeight(b.mainHeight) - b.seedHeight) / EPOCH_BLOCKS;
             distance != 0 && distance % 2 == 0
    requires !a.isAlt && !b.isAlt && a.seedHash != b.seedHash
    ensures Conflicting(a, b)
  {
    SeedHeightLaws(a.mainHeight);
    MainCallSlot(a.mainHeight, a.seedHeight, a.seedHash, a.seedHash);
    MainCallSlot(b.mainHeight, b.seedHeight, b.seedHash, b.seedHash);
    AdjacentEpochsUseDifferentSlots(a.seedHeight, b.seedHeight);
  }
}
