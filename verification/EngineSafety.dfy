/** The agreement of each slot with its cache in every interleaving, and the exact condition under
    which a hash is computed with the requested seed. */
module EngineSafety {
  import opened Basics
  import opened EngineSteps
  import opened EngineLocks

  /** The recorded hash is the key of the slot's cache. */
  predicate Consistent(s: State, i: nat)
    requires i < |s.slots|
  {
    s.slots[i].cache.Some? ==>
      s.slots[i].cache.value < |s.caches| && s.caches[s.slots[i].cache.value].key == Some(s.slots[i].hash)
  }

  /** Between refilling a cache and recording its key. */
  predicate Storing(pc: Pc) {
    pc.StoreCache? || pc.StoreHeight? || pc.StoreHash?
  }

  /** A slot keeps its own cache, and agrees with it unless its owner is in the middle of a refill. */
  predicate SlotData(s: State, i: nat)
    requires i < |s.slots| == |s.locks.slots|
  {
    && (s.slots[i].cache.Some? ==>
          s.slots[i].cache.value < |s.caches| && s.caches[s.slots[i].cache.value].home == i)
    && (Consistent(s, i) ||
        (s.locks.slots[i].Some? && s.locks.slots[i].value < |s.threads|
         && Storing(s.threads[s.locks.slots[i].value].pc)))
  }

  /** The key of a slot's cache after the events between two positions of the log, when it was `key`. */
  function KeyAfter(log: seq<Event>, from: nat, end: nat, slot: nat, key: Seed): Seed
    requires end <= |log|
    decreases end
  {
    if end <= from + 1 then key
    else
      var ev := log[end - 1];
      if ev.Refilled? && ev.slot == slot then ev.seed else KeyAfter(log, from, end - 1, slot, key)
  }

  predicate Absent(log: seq<Event>, from: nat, to: nat, t: nat)
    requires to <= |log|
  {
    forall k :: from < k < to ==> log[k].thread != t
  }

  predicate RefillOk(s: State, t: nat)
    requires Ready(s, t) && Refilling(s.threads[t].pc)
  {
    var th, slot := s.threads[t], SlotOf(s, t);
    && s.caches[th.cache].home == th.choice.slot
    && (slot.cache.Some? ==> slot.cache.value == th.cache)
    && (th.pc.StoreHeight? || th.pc.StoreHash? ==> slot.cache.Some?)
    && (Storing(th.pc) ==> s.caches[th.cache].key == Some(th.call.seedHash))
  }

  /** The thread's machine reads the cache of its slot as it is now. */
  predicate BoundToSlot(s: State, t: nat)
    requires Ready(s, t)
  {
    var vm, slot := s.threads[t].vm, SlotOf(s, t);
    vm.LightVm? && slot.cache == Some(vm.cache) && s.caches[vm.cache].key == vm.key
  }

  predicate BindOk(s: State, t: nat)
    requires Ready(s, t)
  {
    var th, slot := s.threads[t], SlotOf(s, t);
    && slot.cache.Some?
    && slot.hash == th.call.seedHash
    && (th.pc.ReleaseSlot? || th.pc.HashLocked? ==> !th.mined ==> BoundToSlot(s, t))
    && (th.pc.HashLocked? ==> th.choice.alt)
    && (th.pc.ReleaseSlot? ==> !th.choice.alt)
  }

  /** Between dropping the slot lock and hashing: the machine is bound to the requested key, and the key of
      its cache is that of the slot's last refill since the lock was dropped. */
  predicate FreeOk(s: State, t: nat)
    requires Ready(s, t)
  {
    var th, slot := s.threads[t], SlotOf(s, t);
    && !th.choice.alt
    && th.mark < |s.log| && s.log[th.mark] == Unlocked(t, th.choice.slot)
    && Absent(s.log, th.mark, |s.log|, t)
    && (!th.mined ==>
          && th.vm.LightVm? && slot.cache == Some(th.vm.cache) && th.vm.key == Some(th.call.seedHash)
          && s.caches[th.vm.cache].key
               == Some(KeyAfter(s.log, th.mark, |s.log|, th.choice.slot, th.call.seedHash)))
  }

  predicate LightOk(th: Thread) {
    !th.mined ==>
      && !th.vm.FullVm?
      && !(th.pc.WantDataset? || th.pc.UseDataset? || th.pc.LeaveDataset? || th.pc.CreateVm?)
      && th.call.miners == 0
  }

  predicate ThreadOk(s: State, t: nat)
    requires Ready(s, t)
  {
    var th := s.threads[t];
    && LightOk(th)
    && (Refilling(th.pc) ==> RefillOk(s, t))
    && (Binding(th.pc) || th.pc.ReleaseSlot? || th.pc.HashLocked? ==> BindOk(s, t))
    && (th.pc.HashFree? ==> FreeOk(s, t))
  }

  predicate Kept(s: State, t: nat) {
    Ready(s, t) && ThreadOk(s, t)
  }

  /** A hash that was computed: with the requested seed, or exactly why not. */
  predicate EventOk(log: seq<Event>, j: nat)
    requires j < |log| && log[j].Hashed?
  {
    var ev := log[j];
    ev.mined ||
    if ev.alt then ev.source == Key(ev.call.seedHash)
    else
      && ev.mark < j && log[ev.mark] == Unlocked(ev.thread, ev.slot)
      && Absent(log, ev.mark, j, ev.thread)
      && ev.source == (if KeyAfter(log, ev.mark, j, ev.slot, ev.call.seedHash) == ev.call.seedHash
                       then Key(ev.call.seedHash) else Disturbed)
  }

  ghost predicate LogOk(log: seq<Event>) {
    forall j :: 0 <= j < |log| && log[j].Hashed? ==> EventOk(log, j)
  }

  ghost predicate ThreadsOk(s: State) {
    forall t :: 0 <= t < |s.threads| ==> Kept(s, t)
  }

  ghost predicate Inv(s: State) {
    && |s.slots| == 2
    && LockInv(s.threads, s.locks)
    && SlotData(s, 0) && SlotData(s, 1)
    && ThreadsOk(s)
    && LogOk(s.log)
  }

  lemma InitialOk(n: nat)
    ensures Inv(Initial(n))
  {
  }

  // ---------------------------------------------------------------------------------------------
  // A step and the other threads
  // ---------------------------------------------------------------------------------------------

  /** Two owners of slot locks own different slots. */
  predicate Apart(s: State, t: nat, u: nat)
    requires t < |s.threads| && u < |s.threads|
  {
    HoldsSlot(s.threads[t].pc) && HoldsSlot(s.threads[u].pc) ==>
      s.threads[t].choice.slot != s.threads[u].choice.slot
  }

  lemma OwnersAreApart(s: State, t: nat, u: nat)
    requires LockInv(s.threads, s.locks) && t < |s.threads| && u < |s.threads| && t != u
    ensures Apart(s, t, u)
  {
    var i := s.threads[t].choice.slot;
    assert i == 0 || i == 1;
    assert Owns(s.threads[t], i) <==> s.locks.slots[i] == Some(t);
    assert Owns(s.threads[u], i) <==> s.locks.slots[i] == Some(u);
  }

  predicate SameSlots(s: State, s': State) {
    |s.slots| == |s'.slots| == |s'.locks.slots| == 2
    && s'.slots[0].cache == s.slots[0].cache && s'.slots[0].hash == s.slots[0].hash
    && s'.slots[1].cache == s.slots[1].cache && s'.slots[1].hash == s.slots[1].hash
  }

  predicate SameThread(s: State, s': State, u: nat) {
    u < |s.threads| && u < |s'.threads| && s'.threads[u] == s.threads[u]
  }

  /** A step that leaves the caches, the log and the recorded seeds alone. */
  lemma QuietOther(s: State, s': State, u: nat)
    requires SameThread(s, s', u) && Ready(s, u) && ThreadOk(s, u)
    requires SameSlots(s, s') && s'.caches == s.caches && s'.log == s.log
    ensures Ready(s', u) && ThreadOk(s', u)
  {
  }

  lemma AllocateOther(s: State, s': State, u: nat, cache: Cache)
    requires SameThread(s, s', u) && Ready(s, u) && ThreadOk(s, u)
    requires SameSlots(s, s') && s'.caches == s.caches + [cache] && s'.log == s.log
    ensures Ready(s', u) && ThreadOk(s', u)
  {
    assert forall c :: 0 <= c < |s.caches| ==> s'.caches[c] == s.caches[c];
  }

  lemma LogOther(s: State, s': State, t: nat, u: nat, ev: Event)
    requires SameThread(s, s', u) && Ready(s, u) && ThreadOk(s, u)
    requires SameSlots(s, s') && s'.caches == s.caches
    requires s'.log == s.log + [ev] && ev.thread == t != u && !ev.Refilled?
    ensures Ready(s', u) && ThreadOk(s', u)
  {
    if s.threads[u].pc.HashFree? {
      LogGrows(s.log, ev, s.threads[u].mark, s.threads[u].choice.slot, u, s.threads[u].call.seedHash);
    }
  }

  lemma LogGrows(log: seq<Event>, ev: Event, from: nat, slot: nat, t: nat, key: Seed)
    requires from < |log|
    ensures Absent(log + [ev], from, |log| + 1, t) <==> Absent(log, from, |log|, t) && ev.thread != t
    ensures Absent(log + [ev], from, |log|, t) <==> Absent(log, from, |log|, t)
    ensures KeyAfter(log + [ev], from, |log| + 1, slot, key) ==
      if ev.Refilled? && ev.slot == slot then ev.seed else KeyAfter(log, from, |log|, slot, key)
    ensures KeyAfter(log + [ev], from, |log|, slot, key) == KeyAfter(log, from, |log|, slot, key)
  {
    var log' := log + [ev];
    assert forall k :: 0 <= k < |log| ==> log'[k] == log[k];
    assert log'[|log|] == ev;
    KeyOfPrefix(log, ev, from, |log|, slot, key);
  }

  lemma {:induction false} KeyOfPrefix(log: seq<Event>, ev: Event, from: nat, end: nat, slot: nat, key: Seed)
    requires end <= |log|
    ensures KeyAfter(log + [ev], from, end, slot, key) == KeyAfter(log, from, end, slot, key)
  {
    if end > from + 1 {
      KeyOfPrefix(log, ev, from, end - 1, slot, key);
    }
  }

  lemma StoreOther(s: State, s': State, t: nat, u: nat)
    requires SameThread(s, s', u) && Ready(s, u) && ThreadOk(s, u)
    requires t < |s.threads| && t != u && HoldsSlot(s.threads[t].pc) && s.threads[t].choice.slot < 2
    requires Apart(s, t, u)
    requires s'.caches == s.caches && s'.log == s.log
    requires |s'.slots| == |s'.locks.slots| == 2
    requires forall i :: 0 <= i < 2 && i != s.threads[t].choice.slot ==> s'.slots[i] == s.slots[i]
    requires SlotOf(s, t).cache.Some? ==> s'.slots[s.threads[t].choice.slot].cache == SlotOf(s, t).cache
    ensures Ready(s', u) && ThreadOk(s', u)
  {
  }

  lemma InitOther(s: State, s': State, t: nat, u: nat)
    requires Ready(s, t) && s.threads[t].pc.InitCache? && RefillOk(s, t) && SlotData(s, s.threads[t].choice.slot)
    requires SameThread(s, s', u) && Ready(s, u) && ThreadOk(s, u)
    requires t != u && Apart(s, t, u)
    requires SameSlots(s, s') && s'.caches == InitStep(s, t).caches && s'.log == InitStep(s, t).log
    requires s.threads[u].vm.LightVm? && s.threads[u].pc.HashFree? && !s.threads[u].mined ==>
      SlotData(s, s.threads[u].choice.slot)
    requires Binding(s.threads[u].pc) || s.threads[u].pc.ReleaseSlot? || s.threads[u].pc.HashLocked? ==>
      SlotData(s, s.threads[u].choice.slot)
    ensures Ready(s', u) && ThreadOk(s', u)
  {
    var c := s.threads[t].cache;
    assert forall d :: 0 <= d < |s.caches| && d != c ==> s'.caches[d] == s.caches[d];
    if s.threads[u].pc.HashFree? {
      LogGrows(s.log, s'.log[|s.log|], s.threads[u].mark, s.threads[u].choice.slot, u, s.threads[u].call.seedHash);
    }
  }

  // ---------------------------------------------------------------------------------------------
  // A step and the thread that makes it
  // ---------------------------------------------------------------------------------------------

  predicate OwnFacts(s: State, t: nat) {
    && Ready(s, t) && ThreadOk(s, t) && SlotData(s, s.threads[t].choice.slot)
    && (Owns(s.threads[t], 0) <==> s.locks.slots[0] == Some(t))
    && (Owns(s.threads[t], 1) <==> s.locks.slots[1] == Some(t))
  }

  lemma OwnFactsHold(s: State, t: nat)
    requires Inv(s) && t < |s.threads|
    ensures OwnFacts(s, t)
  {
    var i := s.threads[t].choice.slot;
    assert Kept(s, t);
    assert i == 0 || i == 1;
    assert Owns(s.threads[t], 0) <==> s.locks.slots[0] == Some(t);
    assert Owns(s.threads[t], 1) <==> s.locks.slots[1] == Some(t);
  }

  lemma OwnBegin(s: State, t: nat, op: Operation)
    requires OwnFacts(s, t) && s.threads[t].pc.Idle?
    ensures Kept(BeginOperation(s, t, op), t)
  {
  }

  /** Program counters at which nothing is known about the slot. */
  predicate Plain(pc: Pc) {
    pc.Idle? || Entering(pc) || pc.ReleaseAlt? || !InCall(pc)
  }

  lemma OwnPlain(s: State, s': State, t: nat)
    requires Kept(s, t) && !s.threads[t].pc.Idle? && Moved(s.threads, s'.threads, t)
    requires |s'.slots| == |s'.locks.slots| == 2 && |s.caches| <= |s'.caches|
    requires Plain(s'.threads[t].pc) && !s.threads[t].pc.BindVm? && !s.threads[t].pc.CreateVm?
    ensures Kept(s', t)
  {
  }

  lemma OwnEnter(s: State, t: nat)
    requires OwnFacts(s, t) && Entering(s.threads[t].pc)
    ensures Kept(EnterStep(s, t), t)
  {
    EnterMoves(s, t);
    EnterChanges(s, t);
    if s.threads[t].pc.LoadCache? {
      OwnLoad(s, t);
    } else {
      OwnPlain(s, EnterStep(s, t), t);
    }
  }

  lemma OwnOutside(s: State, t: nat)
    requires OwnFacts(s, t) && !s.threads[t].pc.Idle? && !InCall(s.threads[t].pc)
    ensures Kept(OutsideStep(s, t), t)
  {
    if Stopping(s.threads[t].pc) {
      StopMoves(s, t);
    } else {
      ReorgMoves(s, t);
    }
    OutsideChanges(s, t);
    OwnPlain(s, OutsideStep(s, t), t);
  }

  lemma OwnLoad(s: State, t: nat)
    requires OwnFacts(s, t) && s.threads[t].pc.LoadCache?
    ensures Kept(LoadStep(s, t), t)
  {
  }

  lemma OwnRefill(s: State, t: nat)
    requires OwnFacts(s, t) && Refilling(s.threads[t].pc)
    ensures Kept(RefillStep(s, t), t)
  {
  }

  lemma OwnRebind(e: Env, s: State, t: nat)
    requires OwnFacts(s, t) && s.threads[t].pc.BindVm?
    ensures Kept(BindStep(e, s, t), t)
  {
  }

  /** The dataset path is only taken by threads that asked for mining. */
  lemma OwnDataset(e: Env, s: State, t: nat)
    requires OwnFacts(s, t) && Binding(s.threads[t].pc) && !s.threads[t].pc.BindVm?
    ensures Kept(BindStep(e, s, t), t)
  {
    assert s.threads[t].mined;
  }

  lemma OwnBind(e: Env, s: State, t: nat)
    requires OwnFacts(s, t) && Binding(s.threads[t].pc)
    ensures Kept(BindStep(e, s, t), t)
  {
    if s.threads[t].pc.BindVm? {
      OwnRebind(e, s, t);
    } else {
      OwnDataset(e, s, t);
    }
  }

  lemma OwnFinish(s: State, t: nat)
    requires OwnFacts(s, t) && Finishing(s.threads[t].pc)
    ensures Kept(FinishStep(s, t), t)
  {
  }

  // ---------------------------------------------------------------------------------------------
  // A step and the slots
  // ---------------------------------------------------------------------------------------------

  /** What a step does to the slots, the caches and the log. */
  predicate DataChange(s: State, s': State, t: nat)
    requires Ready(s, t)
  {
    var th := s.threads[t];
    var i := th.choice.slot;
    && |s'.slots| == 2
    && (if th.pc.LoadCache? && SlotOf(s, t).cache.None? then s'.caches == s.caches + [Cache(None, i)]
        else if th.pc.InitCache? then s'.caches == InitStep(s, t).caches
        else s'.caches == s.caches)
    && (if th.pc.InitCache? then s'.log == InitStep(s, t).log
        else if th.pc.ReleaseSlot? then s'.log == s.log + [Unlocked(t, i)]
        else if th.pc.HashFree? || th.pc.HashLocked? then
          s'.log == s.log + [Hashed(t, i, th.call, th.choice.alt, SourceOf(s, th.vm), th.mark, th.mined)]
        else s'.log == s.log)
    && (forall k :: 0 <= k < 2 && !(k == i && (th.pc.StoreCache? || th.pc.StoreHash?)) ==>
          s'.slots[k].cache == s.slots[k].cache && s'.slots[k].hash == s.slots[k].hash)
    && (forall k :: 0 <= k < 2 && k != i && Storing(th.pc) ==> s'.slots[k] == s.slots[k])
    && (th.pc.StoreCache? ==> s'.slots[i].cache == Some(th.cache) && s'.slots[i].hash == s.slots[i].hash)
    && (th.pc.StoreHash? ==> s'.slots[i].cache == s.slots[i].cache && s'.slots[i].hash == th.call.seedHash)
  }

  lemma EnterChanges(s: State, t: nat)
    requires Ready(s, t) && Entering(s.threads[t].pc)
    ensures DataChange(s, EnterStep(s, t), t)
  {
  }

  lemma RefillChanges(s: State, t: nat)
    requires Ready(s, t) && Refilling(s.threads[t].pc)
    ensures DataChange(s, RefillStep(s, t), t)
  {
  }

  lemma BindChanges(e: Env, s: State, t: nat)
    requires Ready(s, t) && Binding(s.threads[t].pc)
    ensures DataChange(s, BindStep(e, s, t), t)
  {
  }

  lemma FinishChanges(s: State, t: nat)
    requires Ready(s, t) && Finishing(s.threads[t].pc)
    ensures DataChange(s, FinishStep(s, t), t)
  {
  }

  lemma OutsideChanges(s: State, t: nat)
    requires Ready(s, t) && !s.threads[t].pc.Idle? && !InCall(s.threads[t].pc)
    ensures DataChange(s, OutsideStep(s, t), t)
  {
  }

  lemma DataChanges(e: Env, s: State, t: nat)
    requires Ready(s, t) && !s.threads[t].pc.Idle?
    ensures DataChange(s, DataStep(e, s, t), t)
  {
    var pc := s.threads[t].pc;
    if Entering(pc) {
      EnterChanges(s, t);
    } else if Refilling(pc) {
      RefillChanges(s, t);
    } else if Binding(pc) {
      BindChanges(e, s, t);
    } else if Finishing(pc) {
      FinishChanges(s, t);
    } else {
      OutsideChanges(s, t);
    }
  }

  /** The rest of an advance, seen by any other thread. */
  lemma OtherKept(s: State, s': State, t: nat, u: nat)
    requires Inv(s) && t < |s.threads| && u < |s.threads| && t != u
    requires Ready(s, t) && DataChange(s, s', t)
    requires SameThread(s, s', u) && |s'.locks.slots| == 2
    ensures Kept(s', u)
  {
    var pc, i := s.threads[t].pc, s.threads[t].choice.slot;
    OwnersAreApart(s, t, u);
    OwnFactsHold(s, t);
    OwnFactsHold(s, u);
    if pc.InitCache? {
      InitOther(s, s', t, u);
    } else if pc.StoreCache? || pc.StoreHash? {
      StoreOther(s, s', t, u);
    } else if pc.ReleaseSlot? || pc.HashFree? || pc.HashLocked? {
      LogOther(s, s', t, u, s'.log[|s.log|]);
    } else if pc.LoadCache? && SlotOf(s, t).cache.None? {
      AllocateOther(s, s', u, Cache(None, i));
    } else {
      QuietOther(s, s', u);
    }
  }

  lemma OwnKept(e: Env, s: State, t: nat)
    requires OwnFacts(s, t) && !s.threads[t].pc.Idle?
    ensures Kept(DataStep(e, s, t), t)
  {
    var pc := s.threads[t].pc;
    if Entering(pc) {
      OwnEnter(s, t);
    } else if Refilling(pc) {
      OwnRefill(s, t);
    } else if Binding(pc) {
      OwnBind(e, s, t);
    } else if Finishing(pc) {
      OwnFinish(s, t);
    } else {
      OwnOutside(s, t);
    }
  }

  lemma LocksDoNotMatter(s: State, s': State, t: nat)
    requires Kept(s, t) && |s'.locks.slots| == 2 && s' == s.(locks := s'.locks)
    ensures Kept(s', t)
  {
  }

  lemma SlotKept(s: State, s': State, t: nat, i: nat)
    requires OwnFacts(s, t) && i < 2 && SlotData(s, i)
    requires DataChange(s, s', t) && |s'.locks.slots| == 2
    requires Moved(s.threads, s'.threads, t)
    requires s.locks.slots[i].Some? && s.locks.slots[i].value != t ==> s'.locks.slots[i] == s.locks.slots[i]
    requires Storing(s'.threads[t].pc) && s.locks.slots[i] == Some(t) ==> s'.locks.slots[i] == Some(t)
    ensures SlotData(s', i)
  {
    var pc := s.threads[t].pc;
    if pc.InitCache? {
      var c := s.threads[t].cache;
      assert forall d :: 0 <= d < |s.caches| && d != c ==> s'.caches[d] == s.caches[d];
    }
  }

  lemma EventsKept(s: State, s': State, t: nat)
    requires LogOk(s.log) && OwnFacts(s, t) && DataChange(s, s', t)
    ensures LogOk(s'.log)
  {
    if s'.log != s.log {
      var ev := s'.log[|s.log|];
      assert s'.log == s.log + [ev];
      forall j | 0 <= j < |s'.log| && s'.log[j].Hashed?
        ensures EventOk(s'.log, j)
      {
        if j < |s.log| {
          assert EventOk(s.log, j);
          OldEvent(s.log, ev, j);
        } else if !ev.alt && !ev.mined {
          LogGrows(s.log, ev, ev.mark, ev.slot, ev.thread, ev.call.seedHash);
        }
      }
    }
  }

  lemma OldEvent(log: seq<Event>, ev: Event, j: nat)
    requires j < |log| && log[j].Hashed? && EventOk(log, j)
    ensures EventOk(log + [ev], j)
  {
    assert forall k :: 0 <= k < |log| ==> (log + [ev])[k] == log[k];
    KeyOfPrefix(log, ev, log[j].mark, j, log[j].slot, log[j].call.seedHash);
  }

  lemma AdvanceOk(e: Env, s: State, t: nat)
    requires Inv(s) && Enabled(s, Advance(t))
    ensures Inv(Apply(e, s, Advance(t)))
  {
    var s' := Apply(e, s, Advance(t));
    LockStep(e, s, Advance(t));
    LockDiscipline(e, s, Advance(t));
    Moves(e, s, Advance(t));
    OwnFactsHold(s, t);
    OwnKept(e, s, t);
    LocksDoNotMatter(DataStep(e, s, t), s', t);
    DataChanges(e, s, t);
    LockedSlots(s, s', t);
    SlotKept(s, s', t, 0);
    SlotKept(s, s', t, 1);
    EventsKept(s, s', t);
    forall u | 0 <= u < |s'.threads|
      ensures Kept(s', u)
    {
      if u != t {
        OtherKept(s, s', t, u);
      }
    }
  }

  lemma LockedSlots(s: State, s': State, t: nat)
    requires Enabled(s, Advance(t)) && OwnFacts(s, t) && Moved(s.threads, s'.threads, t)
    requires |s'.locks.slots| == 2
    requires LockMoves(s.locks, s'.locks, t, s.threads[t], s'.threads[t])
    ensures forall i :: 0 <= i < 2 && s.locks.slots[i].Some? && s.locks.slots[i].value != t ==>
      s'.locks.slots[i] == s.locks.slots[i]
    ensures forall i :: 0 <= i < 2 && Storing(s'.threads[t].pc) && s.locks.slots[i] == Some(t) ==>
      s'.locks.slots[i] == Some(t)
  {
  }

  lemma BeginOther(s: State, t: nat, op: Operation, u: nat)
    requires Inv(s) && Enabled(s, Begin(t, op)) && u < |s.threads| && u != t
    ensures Kept(BeginOperation(s, t, op), u)
  {
    OwnFactsHold(s, u);
    QuietOther(s, BeginOperation(s, t, op), u);
  }

  lemma BeginSlot(s: State, t: nat, op: Operation, i: nat)
    requires Enabled(s, Begin(t, op)) && i < 2 && SlotData(s, i)
    ensures SlotData(BeginOperation(s, t, op), i)
  {
  }

  lemma BeginOk(s: State, t: nat, op: Operation)
    requires Inv(s) && Enabled(s, Begin(t, op))
    ensures Inv(BeginOperation(s, t, op))
  {
    var s' := BeginOperation(s, t, op);
    LockStep(Env(false, false), s, Begin(t, op));
    OwnFactsHold(s, t);
    OwnBegin(s, t, op);
    BeginSlot(s, t, op, 0);
    BeginSlot(s, t, op, 1);
    forall u | 0 <= u < |s'.threads|
      ensures Kept(s', u)
    {
      if u != t {
        BeginOther(s, t, op, u);
      }
    }
  }

  /** The invariant holds in every state of every schedule. */
  lemma {:induction false} AlwaysOk(e: Env, n: nat, schedule: seq<Action>)
    ensures Inv(After(e, Initial(n), schedule))
  {
    if schedule == [] {
      InitialOk(n);
    } else {
      var k := |schedule| - 1;
      AlwaysOk(e, n, schedule[..k]);
      var before, a := After(e, Initial(n), schedule[..k]), schedule[k];
      if Enabled(before, a) {
        match a {
          case Advance(t) => AdvanceOk(e, before, t);
          case Begin(t, op) => BeginOk(before, t, op);
        }
      }
    }
  }
}
