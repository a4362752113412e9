/** While only the seeds of two fixed adjacent epochs are requested, each slot is filled at most once. */
module EngineOnce {
  import opened Basics
  import opened SeedEpochs
  import opened EngineSteps
  import opened EngineLocks
  import opened EngineSafety
  import opened EngineSharing

  /** The refills of a slot in a log. */
  function Refills(log: seq<Event>, slot: nat): nat {
    if log == [] then 0
    else
      var ev := log[|log| - 1];
      Refills(log[..|log| - 1], slot) + if ev.Refilled? && ev.slot == slot then 1 else 0
  }

  predicate InPair(height: Uint64, epoch: Uint64) {
    height == epoch || height == epoch + EPOCH_BLOCKS
  }

  predicate PairCall(call: Call, seeds: SeedTable, epoch: Uint64) {
    MainCall(call, seeds) && InPair(call.seedHeight, epoch)
  }

  predicate Reorganising(pc: Pc) {
    pc.ReorgWant? || pc.ReorgFirst? || pc.ReorgSecond? || pc.ReorgRelease?
  }

  /** Main-chain calls for the two epochs, the end of mining, and frees of a thread's machine. */
  predicate PairAction(a: Action, seeds: SeedTable, epoch: Uint64) {
    a.Begin? ==> !a.op.Reorg? && (a.op.SlowHash? ==> PairCall(a.op.call, seeds, epoch))
  }

  ghost predicate PairCalls(s: State, seeds: SeedTable, epoch: Uint64) {
    forall t :: 0 <= t < |s.threads| ==> PairThread(s.threads[t], seeds, epoch)
  }

  predicate PairThread(th: Thread, seeds: SeedTable, epoch: Uint64) {
    !Reorganising(th.pc) && (InCall(th.pc) ==> PairCall(th.call, seeds, epoch))
  }

  lemma PairCallsAreAWindow(s: State, seeds: SeedTable, epoch: Uint64)
    requires PairCalls(s, seeds, epoch)
    ensures Window(s, seeds)
  {
    forall t | 0 <= t < |s.threads|
      ensures PairThread(s.threads[t], seeds, epoch)
    {
    }
    forall t, u | 0 <= t < |s.threads| && 0 <= u < |s.threads|
      ensures Adjacent(s.threads[t], s.threads[u])
    {
      assert PairThread(s.threads[t], seeds, epoch) && PairThread(s.threads[u], seeds, epoch);
    }
  }

  lemma PairCallsStep(e: Env, s: State, a: Action, seeds: SeedTable, epoch: Uint64)
    requires PairCalls(s, seeds, epoch) && PairAction(a, seeds, epoch) && Enabled(s, a)
    ensures PairCalls(Apply(e, s, a), seeds, epoch)
  {
    Moves(e, s, a);
    var t, s' := a.thread, Apply(e, s, a);
    assert PairThread(s.threads[t], seeds, epoch);
    if a.Begin? {
      assert PairThread(BeginOperation(s, t, a.op).threads[t], seeds, epoch);
    } else {
      assert PairThread(s'.threads[t], seeds, epoch);
    }
  }

  lemma {:induction false} PairRuns(e: Env, n: nat, schedule: seq<Action>, seeds: SeedTable, epoch: Uint64)
    requires forall k :: 0 <= k < |schedule| ==> PairAction(schedule[k], seeds, epoch)
    ensures PairCalls(After(e, Initial(n), schedule), seeds, epoch)
  {
    if schedule != [] {
      var k := |schedule| - 1;
      PairRuns(e, n, schedule[..k], seeds, epoch);
      var before := After(e, Initial(n), schedule[..k]);
      if Enabled(before, schedule[k]) {
        PairCallsStep(e, before, schedule[k], seeds, epoch);
      }
    }
  }

  // ---------------------------------------------------------------------------------------------
  // Heights on their way into a slot
  // ---------------------------------------------------------------------------------------------

  /** A thread about to record its seed has recorded its height. */
  predicate HeightStored(s: State, t: nat) {
    Ready(s, t) && (s.threads[t].pc.StoreHash? ==> SlotOf(s, t).height == s.threads[t].call.seedHeight)
  }

  ghost predicate HeightsStored(s: State) {
    forall t :: 0 <= t < |s.threads| ==> HeightStored(s, t)
  }

  /** The recorded height of a slot only changes in StoreHeight and in a reorganisation. */
  predicate HeightsKept(s: State, s': State, t: nat)
    requires Ready(s, t)
  {
    && |s'.slots| == 2
    && (forall k :: 0 <= k < 2 && !(k == s.threads[t].choice.slot && s.threads[t].pc.StoreHeight?) ==>
          s'.slots[k].height == s.slots[k].height)
  }

  lemma HeightsAreKept(e: Env, s: State, t: nat)
    requires Ready(s, t) && !s.threads[t].pc.Idle? && !Reorganising(s.threads[t].pc)
    ensures HeightsKept(s, DataStep(e, s, t), t)
  {
    var pc := s.threads[t].pc;
    if Entering(pc) {
      assert EnterStep(s, t).slots == s.slots;
    } else if Binding(pc) {
      assert BindStep(e, s, t).slots == s.slots;
    } else if Finishing(pc) {
      assert FinishStep(s, t).slots == s.slots;
    } else if !Refilling(pc) {
      assert OutsideStep(s, t).slots == s.slots;
    }
  }

  lemma NextPcs(e: Env, s: State, t: nat)
    requires Ready(s, t) && !s.threads[t].pc.Idle?
    ensures var s' := DataStep(e, s, t);
            |s'.threads| == |s.threads|
            && (s.threads[t].pc.CheckSeed? ==>
                  s'.threads[t].pc == if SlotMatches(SlotOf(s, t), s.threads[t].call) then BindVm else InitCache)
  {
    DataMoves(e, s, t);
  }

  lemma OwnHeight(e: Env, s: State, t: nat)
    requires Enabled(s, Advance(t)) && Ready(DataStep(e, s, t), t)
    ensures HeightStored(DataStep(e, s, t), t)
  {
    DataMoves(e, s, t);
    if DataStep(e, s, t).threads[t].pc.StoreHash? {
      assert s.threads[t].pc.StoreHeight?;
    }
  }

  lemma OtherHeight(s: State, s': State, t: nat, u: nat)
    requires Ready(s, t) && HeightStored(s, u) && t != u && HeightsKept(s, s', t) && Apart(s, t, u)
    requires SameThread(s, s', u) && Ready(s', u)
    ensures HeightStored(s', u)
  {
  }

  lemma HeightsAfter(e: Env, s: State, t: nat)
    requires Inv(s) && HeightsStored(s) && Enabled(s, Advance(t)) && !Reorganising(s.threads[t].pc)
    ensures HeightsStored(Apply(e, s, Advance(t)))
  {
    var data, s' := DataStep(e, s, t), Apply(e, s, Advance(t));
    AdvanceOk(e, s, t);
    DataMoves(e, s, t);
    HeightsAreKept(e, s, t);
    OwnFactsHold(s, t);
    OwnKept(e, s, t);
    forall u | 0 <= u < |s'.threads| ensures HeightStored(s', u) {
      assert Kept(s', u);
      if u == t {
        OwnHeight(e, s, t);
      } else {
        assert HeightStored(s, u);
        OwnersAreApart(s, t, u);
        OtherHeight(s, s', t, u);
      }
    }
  }

  /** The slot of a call of the pair is the one of its epoch's parity. */
  predicate SlotIsParity(th: Thread) {
    Chosen(th.pc) ==> th.choice.slot == EpochSlot(th.call.seedHeight)
  }

  lemma PairSlot(th: Thread, seeds: SeedTable, epoch: Uint64)
    requires ChoiceOk(th) && PairThread(th, seeds, epoch)
    ensures SlotIsParity(th)
  {
    if Chosen(th.pc) {
      NeighbouringEpochSlot(th.call.mainHeight, th.call.seedHeight, th.call.seedHash, th.call.seedHash);
    }
  }

  // ---------------------------------------------------------------------------------------------
  // A filled slot
  // ---------------------------------------------------------------------------------------------

  /** The slot records a seed of the pair, or its owner is about to record it. */
  predicate Filled(s: State, seeds: SeedTable, epoch: Uint64, i: nat)
    requires i < |s.slots| == |s.locks.slots|
  {
    var slot, owner := s.slots[i], s.locks.slots[i];
    || (owner.Some? && owner.value < |s.threads| && Storing(s.threads[owner.value].pc))
    || (slot.cache.Some? && slot.height % EPOCH_BLOCKS == 0 && EpochSlot(slot.height) == i
        && InPair(slot.height, epoch) && slot.hash == seeds(slot.height))
  }

  predicate AtInit(th: Thread, i: nat) {
    th.pc.InitCache? && th.choice.slot == i
  }

  ghost predicate Once(s: State, seeds: SeedTable, epoch: Uint64, i: nat)
    requires i < |s.slots| == |s.locks.slots|
  {
    && Refills(s.log, i) <= 1
    && (Refills(s.log, i) == 1 ==>
          && Filled(s, seeds, epoch, i)
          && (forall t :: 0 <= t < |s.threads| ==> !AtInit(s.threads[t], i)))
  }

  /** A slot that records a seed of the pair matches every call of the pair that uses it. */
  lemma FilledMatches(s: State, seeds: SeedTable, epoch: Uint64, t: nat)
    requires epoch % EPOCH_BLOCKS == 0
    requires OwnFacts(s, t) && SlotIsParity(s.threads[t]) && s.threads[t].pc.CheckSeed?
    requires PairCall(s.threads[t].call, seeds, epoch)
    requires Filled(s, seeds, epoch, s.threads[t].choice.slot)
    ensures SlotMatches(SlotOf(s, t), s.threads[t].call)
  {
    var i := s.threads[t].choice.slot;
    assert i == 0 || i == 1;
    assert s.locks.slots[i] == Some(t);
    AdjacentEpochsUseDifferentSlots(s.threads[t].call.seedHeight, SlotOf(s, t).height);
  }

  lemma RefillsOfAppend(log: seq<Event>, ev: Event, slot: nat)
    ensures Refills(log + [ev], slot) == Refills(log, slot) + if ev.Refilled? && ev.slot == slot then 1 else 0
  {
    assert (log + [ev])[..|log|] == log;
  }

  /** Locks and threads as far as slot i is concerned. */
  predicate SlotMove(s: State, s': State, t: nat, i: nat)
    requires i < |s.locks.slots| == |s'.locks.slots|
  {
    && OthersKept(s.threads, s'.threads, t)
    && LockMove(s.locks.slots[i], s'.locks.slots[i], t, Owns(s.threads[t], i), Owns(s'.threads[t], i))
    && (s.locks.slots[i].Some? ==> s.locks.slots[i].value < |s.threads|)
    && (forall u :: 0 <= u < |s.threads| ==> (Owns(s.threads[u], i) <==> s.locks.slots[i] == Some(u)))
  }

  lemma RefillsAfter(s: State, s': State, t: nat, i: nat)
    requires Ready(s, t) && DataChange(s, s', t)
    ensures Refills(s'.log, i) == Refills(s.log, i) + if AtInit(s.threads[t], i) then 1 else 0
  {
    if s'.log != s.log {
      RefillsOfAppend(s.log, s'.log[|s.log|], i);
    }
  }

  /** A first refill leaves the owner about to record the seed. */
  lemma FirstRefill(s: State, s': State, seeds: SeedTable, epoch: Uint64, t: nat, i: nat)
    requires Ready(s, t) && |s'.slots| == |s'.locks.slots| == 2 && i < 2
    requires SlotMove(s, s', t, i) && AtInit(s.threads[t], i)
    requires s'.threads[t].pc.StoreCache? && s'.threads[t].choice == s.threads[t].choice
    ensures Filled(s', seeds, epoch, i)
    ensures forall u :: 0 <= u < |s'.threads| ==> !AtInit(s'.threads[u], i)
  {
    assert Owns(s.threads[t], i);
    forall u | 0 <= u < |s'.threads|
      ensures !AtInit(s'.threads[u], i)
    {
      assert u != t && AtInit(s'.threads[u], i) ==> Owns(s.threads[u], i);
    }
  }

  /** A filled slot stays filled, and its next visitor does not refill it. */
  lemma StaysFilled(s: State, s': State, seeds: SeedTable, epoch: Uint64, t: nat, i: nat)
    requires OwnFacts(s, t) && SlotIsParity(s.threads[t]) && HeightStored(s, t)
    requires DataChange(s, s', t) && HeightsKept(s, s', t)
    requires |s'.slots| == |s'.locks.slots| == 2 && i < 2
    requires SlotMove(s, s', t, i) && Moved(s.threads, s'.threads, t)
    requires InCall(s.threads[t].pc) ==> PairCall(s.threads[t].call, seeds, epoch)
    requires Filled(s, seeds, epoch, i)
    ensures Filled(s', seeds, epoch, i)
  {
    var th := s.threads[t];
    if th.pc.StoreHash? && th.choice.slot == i {
      assert s'.slots[i].height == th.call.seedHeight;
    }
  }

  /** What an advance of thread t does to slot i. */
  predicate Facts(s: State, s': State, t: nat, i: nat) {
    && i < 2 && |s'.slots| == |s'.locks.slots| == 2
    && OwnFacts(s, t) && SlotIsParity(s.threads[t]) && HeightStored(s, t)
    && DataChange(s, s', t) && HeightsKept(s, s', t)
    && SlotMove(s, s', t, i) && Moved(s.threads, s'.threads, t)
    && (s.threads[t].pc.CheckSeed? && SlotMatches(SlotOf(s, t), s.threads[t].call) ==> s'.threads[t].pc.BindVm?)
  }

  lemma FactsHold(e: Env, s: State, t: nat, i: nat)
    requires Inv(s) && HeightStored(s, t) && SlotIsParity(s.threads[t])
    requires Enabled(s, Advance(t)) && i < 2 && !Reorganising(s.threads[t].pc)
    ensures Facts(s, Apply(e, s, Advance(t)), t, i)
  {
    OwnFactsHold(s, t);
    NextPcs(e, s, t);
    DataMoves(e, s, t);
    DataChanges(e, s, t);
    HeightsAreKept(e, s, t);
    LockDiscipline(e, s, Advance(t));
    assert i == 0 || i == 1;
  }

  lemma OnceFromFacts(s: State, s': State, seeds: SeedTable, epoch: Uint64, t: nat, i: nat)
    requires epoch % EPOCH_BLOCKS == 0
    requires Facts(s, s', t, i) && Once(s, seeds, epoch, i)
    requires InCall(s.threads[t].pc) ==> PairCall(s.threads[t].call, seeds, epoch)
    ensures Once(s', seeds, epoch, i)
  {
    RefillsAfter(s, s', t, i);
    if AtInit(s.threads[t], i) {
      FirstRefill(s, s', seeds, epoch, t, i);
    } else if Refills(s.log, i) == 1 {
      StaysFilled(s, s', seeds, epoch, t, i);
      if s.threads[t].pc.CheckSeed? && s.threads[t].choice.slot == i {
        FilledMatches(s, seeds, epoch, t);
      }
      assert !AtInit(s'.threads[t], i);
    }
  }

  lemma OnceAfterAdvance(e: Env, s: State, seeds: SeedTable, epoch: Uint64, t: nat, i: nat)
    requires epoch % EPOCH_BLOCKS == 0 && i < 2
    requires Inv(s) && HeightsStored(s) && ChoicesOk(s) && PairCalls(s, seeds, epoch) && Enabled(s, Advance(t))
    requires Once(s, seeds, epoch, i)
    ensures |Apply(e, s, Advance(t)).slots| == |Apply(e, s, Advance(t)).locks.slots| == 2
    ensures Once(Apply(e, s, Advance(t)), seeds, epoch, i)
  {
    assert PairThread(s.threads[t], seeds, epoch) && ChoiceOk(s.threads[t]) && HeightStored(s, t);
    PairSlot(s.threads[t], seeds, epoch);
    FactsHold(e, s, t, i);
    OnceFromFacts(s, Apply(e, s, Advance(t)), seeds, epoch, t, i);
  }

  lemma OnceAfterBegin(s: State, seeds: SeedTable, epoch: Uint64, t: nat, op: Operation, i: nat)
    requires |s.slots| == |s.locks.slots| == 2 && i < 2 && Enabled(s, Begin(t, op))
    requires Once(s, seeds, epoch, i)
    ensures Once(BeginOperation(s, t, op), seeds, epoch, i)
  {
    assert !AtInit(BeginOperation(s, t, op).threads[t], i);
  }

  lemma BeginHeights(s: State, t: nat, op: Operation)
    requires Inv(s) && HeightsStored(s) && Enabled(s, Begin(t, op))
    ensures HeightsStored(BeginOperation(s, t, op))
  {
    var s' := BeginOperation(s, t, op);
    BeginOk(s, t, op);
    forall u | 0 <= u < |s'.threads| ensures HeightStored(s', u) {
      assert Kept(s', u) && HeightStored(s, u);
    }
  }

  lemma {:induction false} OnceRuns(e: Env, n: nat, schedule: seq<Action>, seeds: SeedTable, epoch: Uint64, i: nat)
    requires epoch % EPOCH_BLOCKS == 0 && i < 2
    requires forall k :: 0 <= k < |schedule| ==> PairAction(schedule[k], seeds, epoch)
    ensures var s := After(e, Initial(n), schedule);
            HeightsStored(s) && |s.slots| == |s.locks.slots| == 2 && Once(s, seeds, epoch, i)
  {
    if schedule != [] {
      var k := |schedule| - 1;
      OnceRuns(e, n, schedule[..k], seeds, epoch, i);
      PairRuns(e, n, schedule[..k], seeds, epoch);
      AlwaysOk(e, n, schedule[..k]);
      ChoicesRun(e, n, schedule[..k]);
      var before, a := After(e, Initial(n), schedule[..k]), schedule[k];
      if Enabled(before, a) {
        match a {
          case Advance(t) =>
            assert PairThread(before.threads[t], seeds, epoch);
            HeightsAfter(e, before, t);
            OnceAfterAdvance(e, before, seeds, epoch, t, i);
          case Begin(t, op) =>
            BeginHeights(before, t, op);
            OnceAfterBegin(before, seeds, epoch, t, op, i);
        }
      }
    }
  }

  lemma PairWindows(e: Env, n: nat, schedule: seq<Action>, seeds: SeedTable, epoch: Uint64)
    requires forall k :: 0 <= k < |schedule| ==> PairAction(schedule[k], seeds, epoch)
    ensures forall k :: 0 <= k <= |schedule| ==> Window(After(e, Initial(n), schedule[..k]), seeds)
  {
    forall k | 0 <= k <= |schedule|
      ensures Window(After(e, Initial(n), schedule[..k]), seeds)
    {
      PairRuns(e, n, schedule[..k], seeds, epoch);
      PairCallsAreAWindow(After(e, Initial(n), schedule[..k]), seeds, epoch);
    }
  }

  /** Two slots suffice: in every interleaving of main-chain calls for two adjacent epochs each slot is
      filled at most once and every hash uses the seed it was asked for. */
  lemma TwoSlotsSuffice(e: Env, n: nat, schedule: seq<Action>, seeds: SeedTable, epoch: Uint64)
    requires epoch % EPOCH_BLOCKS == 0
    requires forall k :: 0 <= k < |schedule| ==> PairAction(schedule[k], seeds, epoch)
    ensures var log := After(e, Initial(n), schedule).log;
            && Refills(log, 0) <= 1 && Refills(log, 1) <= 1
            && (forall j :: 0 <= j < |log| && log[j].Hashed? ==> log[j].source == Key(log[j].call.seedHash))
  {
    OnceRuns(e, n, schedule, seeds, epoch, 0);
    OnceRuns(e, n, schedule, seeds, epoch, 1);
    PairWindows(e, n, schedule, seeds, epoch);
    forall j | 0 <= j < |After(e, Initial(n), schedule).log| && After(e, Initial(n), schedule).log[j].Hashed?
      ensures After(e, Initial(n), schedule).log[j].source == Key(After(e, Initial(n), schedule).log[j].call.seedHash)
    {
      AdjacentEpochsNeverClash(e, n, seeds, schedule, j);
    }
  }
}
