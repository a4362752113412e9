/** Operations of the hash engine whose steps are not interleaved with those of other threads: all their atomic
    steps together have the effect of the sequential code (src/qrandomx/rx-slow-hash.c:114-125 and 189-307). */
module EngineAlone {
  import opened Basics
  import opened EngineSteps
  import opened EngineLocks
  import opened EngineSafety
  import opened EngineChoice

  /** The state after the next n steps of thread t, when nobody else moves. */
  function Alone(e: Env, s: State, t: nat, n: nat): State {
    if n == 0 then s
    else
      var before := Alone(e, s, t, n - 1);
      if Enabled(before, Advance(t)) then Apply(e, before, Advance(t)) else before
  }

  /** Steps of thread t alone lead from one state to the other. */
  ghost predicate Leads(e: Env, s: State, s': State, t: nat) {
    && (exists n: nat :: s' == Alone(e, s, t, n))
    && t < |s'.threads| == |s.threads| && s'.threads == s.threads[t := s'.threads[t]]
  }

  predicate SameData(s: State, s': State) {
    && s'.slots == s.slots && s'.caches == s.caches && s'.log == s.log
    && s'.dataset == s.dataset && s'.datasetHeight == s.datasetHeight
  }

  /** The thread has moved on to a program counter, and done nothing else but what it did to the locks. */
  predicate MovedOn(s: State, s': State, t: nat, pc: Pc, locks: Locks) {
    && t < |s.threads| && t < |s'.threads|
    && SameData(s, s') && s'.threads[t] == s.threads[t].(pc := pc) && s'.locks == locks
  }

  lemma Start(e: Env, s: State, t: nat)
    requires t < |s.threads|
    ensures Leads(e, s, s, t)
  {
    assert s == Alone(e, s, t, 0);
  }

  lemma Go(e: Env, base: State, s: State, t: nat) returns (s': State)
    requires Leads(e, base, s, t) && Enabled(s, Advance(t))
    ensures Leads(e, base, s', t)
    ensures s' == DataStep(e, s, t).(locks := LockEffect(s.locks, t, s.threads[t].pc, s.threads[t].choice.slot))
  {
    var n: nat :| s == Alone(e, base, t, n);
    s' := Apply(e, s, Advance(t));
    assert s' == Alone(e, base, t, n + 1);
    Moves(e, s, Advance(t));
  }

  // ---------------------------------------------------------------------------------------------
  // Reorganisation, end of mining, and freeing a machine
  // ---------------------------------------------------------------------------------------------

  /** Marks as stale what was recorded at or above the split. */
  function Stale(slot: Slot, split: Uint64): Slot {
    if split <= slot.height then slot.(height := 1) else slot
  }

  lemma ReorgBegins(e: Env, base: State, s: State, t: nat) returns (s': State)
    requires Leads(e, base, s, t) && Ready(s, t) && s.threads[t].pc.ReorgWant? && s.locks == FREE
    ensures Leads(e, base, s', t) && MovedOn(s, s', t, ReorgFirst, FREE.(global := Some(t)))
  {
    s' := Go(e, base, s, t);
  }

  lemma ReorgEnds(e: Env, base: State, s: State, t: nat) returns (s': State)
    requires Leads(e, base, s, t) && Ready(s, t) && s.threads[t].pc.ReorgRelease?
    ensures Leads(e, base, s', t) && MovedOn(s, s', t, Idle, s.locks.(global := None))
  {
    s' := Go(e, base, s, t);
  }

  lemma MarksStale(e: Env, base: State, s: State, t: nat, i: nat, next: Pc) returns (s': State)
    requires Leads(e, base, s, t) && Ready(s, t) && i < 2
    requires s.threads[t].pc == (if i == 0 then ReorgFirst else ReorgSecond)
    requires next == if i == 0 then ReorgSecond else ReorgRelease
    ensures Leads(e, base, s', t)
    ensures s'.threads[t] == s.threads[t].(pc := next) && s'.locks == s.locks
    ensures s'.caches == s.caches && s'.log == s.log && s'.dataset == s.dataset
    ensures var split := s.threads[t].split;
            && s'.slots == s.slots[i := Stale(s.slots[i], split)]
            && s'.datasetHeight ==
                 if split <= s.slots[i].height && s.slots[i].height == s.datasetHeight then 1 else s.datasetHeight
  {
    s' := Go(e, base, s, t);
    assert s.slots[i := s.slots[i]] == s.slots;
  }

  /** The dataset's height goes stale with that of the slot it was built for. */
  function StaleDataset(s: State, split: Uint64): Uint64
    requires |s.slots| == 2
  {
    if (split <= s.slots[0].height && s.slots[0].height == s.datasetHeight)
       || (split <= s.slots[1].height && s.slots[1].height == s.datasetHeight)
    then 1 else s.datasetHeight
  }

  lemma MarksBoth(e: Env, base: State, s: State, t: nat) returns (s': State)
    requires Leads(e, base, s, t) && Ready(s, t) && s.threads[t].pc.ReorgFirst?
    ensures Leads(e, base, s', t) && s'.locks == s.locks && s'.threads[t] == s.threads[t].(pc := ReorgRelease)
    ensures s'.caches == s.caches && s'.log == s.log && s'.dataset == s.dataset
    ensures var split := s.threads[t].split;
            && s'.slots == [Stale(s.slots[0], split), Stale(s.slots[1], split)]
            && s'.datasetHeight == StaleDataset(s, split)
  {
    s' := MarksStale(e, base, s, t, 0, ReorgSecond);
    s' := MarksStale(e, base, s', t, 1, ReorgRelease);
  }

  lemma Reorganises(e: Env, base: State, s: State, t: nat) returns (s': State)
    requires Leads(e, base, s, t) && Ready(s, t) && s.threads[t].pc.ReorgWant? && s.locks == FREE
    ensures Leads(e, base, s', t) && s'.locks == FREE && s'.threads[t] == s.threads[t].(pc := Idle)
    ensures s'.caches == s.caches && s'.log == s.log && s'.dataset == s.dataset
    ensures var split := s.threads[t].split;
            && s'.slots == [Stale(s.slots[0], split), Stale(s.slots[1], split)]
            && s'.datasetHeight == StaleDataset(s, split)
  {
    s' := ReorgBegins(e, base, s, t);
    s' := MarksBoth(e, base, s', t);
    s' := ReorgEnds(e, base, s', t);
  }

  /** A reorganisation makes exactly the slots at or above the split stale, and the dataset with them if it was
      built for the height of one of these; recorded hashes and caches stay. */
  lemma ReorgAlone(e: Env, s: State, t: nat, split: Uint64) returns (s': State)
    requires Enabled(s, Begin(t, Reorg(split))) && s.locks == FREE
    ensures Leads(e, Apply(e, s, Begin(t, Reorg(split))), s', t) && s'.locks == FREE
    ensures s'.threads[t] == s.threads[t].(split := split)
    ensures s'.caches == s.caches && s'.log == s.log && s'.dataset == s.dataset
    ensures s'.slots == [Stale(s.slots[0], split), Stale(s.slots[1], split)]
    ensures s'.datasetHeight == StaleDataset(s, split)
  {
    var begun := Apply(e, s, Begin(t, Reorg(split)));
    Start(e, begun, t);
    s' := Reorganises(e, begun, begun, t);
  }

  lemma StopBegins(e: Env, base: State, s: State, t: nat) returns (s': State)
    requires Leads(e, base, s, t) && Ready(s, t) && s.threads[t].pc.StopWant? && s.locks == FREE
    ensures Leads(e, base, s', t) && MovedOn(s, s', t, StopBody, FREE.(dataset := Some(t)))
  {
    s' := Go(e, base, s, t);
  }

  lemma StopEnds(e: Env, base: State, s: State, t: nat) returns (s': State)
    requires Leads(e, base, s, t) && Ready(s, t) && s.threads[t].pc.StopRelease?
    ensures Leads(e, base, s', t) && MovedOn(s, s', t, Idle, s.locks.(dataset := None))
  {
    s' := Go(e, base, s, t);
  }

  lemma Releases(e: Env, base: State, s: State, t: nat) returns (s': State)
    requires Leads(e, base, s, t) && Ready(s, t) && s.threads[t].pc.StopBody?
    ensures Leads(e, base, s', t) && MovedOn(s.(dataset := false), s', t, StopRelease, s.locks)
  {
    s' := Go(e, base, s, t);
  }

  /** The end of mining releases the dataset and nothing else. */
  lemma StopAlone(e: Env, s: State, t: nat) returns (s': State)
    requires Enabled(s, Begin(t, StopMining)) && s.locks == FREE
    ensures Leads(e, Apply(e, s, Begin(t, StopMining)), s', t) && s'.locks == FREE
    ensures s'.threads[t] == s.threads[t] && SameData(s.(dataset := false), s')
  {
    var begun := Apply(e, s, Begin(t, StopMining));
    Start(e, begun, t);
    s' := StopBegins(e, begun, begun, t);
    s' := Releases(e, begun, s', t);
    s' := StopEnds(e, begun, s', t);
  }

  /** Freeing the machine drops the thread's machine and nothing else; the caches stay. */
  lemma FreeStateAlone(e: Env, s: State, t: nat)
    requires Enabled(s, Begin(t, FreeState))
    ensures var s' := Apply(e, s, Begin(t, FreeState));
            s' == s.(threads := s'.threads) && s'.threads == s.threads[t := s.threads[t].(vm := NoVm)]
  {
  }

  // ---------------------------------------------------------------------------------------------
  // A hash: choosing the slot
  // ---------------------------------------------------------------------------------------------

  lemma TakesGlobal(e: Env, base: State, s: State, t: nat) returns (s': State)
    requires Leads(e, base, s, t) && Ready(s, t) && s.threads[t].pc.WantGlobal? && s.locks == FREE
    ensures Leads(e, base, s', t) && MovedOn(s, s', t, Select, FREE.(global := Some(t)))
  {
    s' := Go(e, base, s, t);
  }

  lemma Selects(e: Env, base: State, s: State, t: nat) returns (s': State)
    requires Leads(e, base, s, t) && Ready(s, t) && s.threads[t].pc.Select?
    ensures Leads(e, base, s', t) && SameData(s, s') && s'.locks == s.locks
    ensures s'.threads[t] == s.threads[t].(pc := WantSlot, choice := Chooses(s, s.threads[t].call))
  {
    SelectByFields(e, s, t);
    s' := Go(e, base, s, t);
  }

  lemma TakesSlot(e: Env, base: State, s: State, t: nat) returns (s': State)
    requires Leads(e, base, s, t) && Ready(s, t) && s.threads[t].pc.WantSlot? && s.locks == FREE.(global := Some(t))
    ensures Leads(e, base, s', t)
    ensures MovedOn(s, s', t, DropGlobal, Holding(t, s.threads[t].choice.slot).(global := Some(t)))
  {
    s' := Go(e, base, s, t);
  }

  lemma DropsGlobal(e: Env, base: State, s: State, t: nat) returns (s': State)
    requires Leads(e, base, s, t) && Ready(s, t) && s.threads[t].pc.DropGlobal?
    ensures Leads(e, base, s', t) && MovedOn(s, s', t, LoadCache, s.locks.(global := None))
  {
    s' := Go(e, base, s, t);
  }

  lemma Choosing(e: Env, base: State, s: State, t: nat) returns (s': State)
    requires Leads(e, base, s, t) && Ready(s, t) && s.threads[t].pc.WantGlobal? && s.locks == FREE
    ensures Leads(e, base, s', t) && SameData(s, s')
    ensures var choice := Chooses(s, s.threads[t].call);
            && s'.threads[t] == s.threads[t].(pc := LoadCache, choice := choice)
            && s'.locks == Holding(t, choice.slot)
  {
    s' := TakesGlobal(e, base, s, t);
    s' := Selects(e, base, s', t);
    s' := TakesSlot(e, base, s', t);
    s' := DropsGlobal(e, base, s', t);
  }

  // ---------------------------------------------------------------------------------------------
  // A hash: the cache of the slot
  // ---------------------------------------------------------------------------------------------

  /** The cache a call uses: that of its slot, or a new one. */
  function CacheOf(s: State, i: nat): nat
    requires i < |s.slots|
  {
    if s.slots[i].cache.Some? then s.slots[i].cache.value else |s.caches|
  }

  function Allocated(s: State, i: nat): seq<Cache>
    requires i < |s.slots|
  {
    if s.slots[i].cache.Some? then s.caches else s.caches + [Cache(None, i)]
  }

  /** The slot already has the requested seed, for the requested height. */
  predicate UpToDate(slot: Slot, call: Call) {
    slot.cache.Some? && slot.height == call.seedHeight && slot.hash == call.seedHash
  }

  function Filled(s: State, i: nat, call: Call): seq<Cache>
    requires i < |s.slots| && CacheOf(s, i) < |Allocated(s, i)|
  {
    var caches, c := Allocated(s, i), CacheOf(s, i);
    if UpToDate(s.slots[i], call) then caches else caches[c := caches[c].(key := Some(call.seedHash))]
  }

  function Refills(s: State, t: nat, i: nat, call: Call): seq<Event>
    requires i < |s.slots|
  {
    if UpToDate(s.slots[i], call) then [] else [Refilled(t, i, call.seedHash)]
  }

  /** Indices are valid, the slot's own included. */
  predicate Inside(s: State, t: nat) {
    Ready(s, t) && (SlotOf(s, t).cache.Some? ==> SlotOf(s, t).cache.value < |s.caches|)
  }

  predicate SameDataset(s: State, s': State) {
    s'.locks == s.locks && s'.dataset == s.dataset && s'.datasetHeight == s.datasetHeight
  }

  lemma Loads(e: Env, base: State, s: State, t: nat) returns (s': State)
    requires Leads(e, base, s, t) && Inside(s, t) && s.threads[t].pc.LoadCache?
    ensures Leads(e, base, s', t) && SameDataset(s, s') && s'.slots == s.slots && s'.log == s.log
    ensures var i := s.threads[t].choice.slot;
            && s'.threads[t] == s.threads[t].(pc := CheckSeed, cache := CacheOf(s, i))
            && s'.caches == Allocated(s, i)
  {
    s' := Go(e, base, s, t);
  }

  lemma Checks(e: Env, base: State, s: State, t: nat) returns (s': State)
    requires Leads(e, base, s, t) && Ready(s, t) && s.threads[t].pc.CheckSeed?
    ensures Leads(e, base, s', t)
    ensures MovedOn(s, s', t, if UpToDate(SlotOf(s, t), s.threads[t].call) then BindVm else InitCache, s.locks)
  {
    s' := Go(e, base, s, t);
  }

  lemma Inits(e: Env, base: State, s: State, t: nat) returns (s': State)
    requires Leads(e, base, s, t) && Ready(s, t) && s.threads[t].pc.InitCache?
    ensures Leads(e, base, s', t) && SameDataset(s, s') && s'.slots == s.slots
    ensures var th := s.threads[t];
            && s'.threads[t] == th.(pc := StoreCache)
            && s'.caches == s.caches[th.cache := s.caches[th.cache].(key := Some(th.call.seedHash))]
            && s'.log == s.log + [Refilled(t, th.choice.slot, th.call.seedHash)]
  {
    s' := Go(e, base, s, t);
  }

  lemma StoresCache(e: Env, base: State, s: State, t: nat) returns (s': State)
    requires Leads(e, base, s, t) && Ready(s, t) && s.threads[t].pc.StoreCache?
    ensures Leads(e, base, s', t) && SameDataset(s, s') && s'.caches == s.caches && s'.log == s.log
    ensures var th, i := s.threads[t], s.threads[t].choice.slot;
            && s'.threads[t] == th.(pc := StoreHeight)
            && s'.slots == s.slots[i := SlotOf(s, t).(cache := Some(th.cache))]
  {
    s' := Go(e, base, s, t);
  }

  lemma StoresHeight(e: Env, base: State, s: State, t: nat) returns (s': State)
    requires Leads(e, base, s, t) && Ready(s, t) && s.threads[t].pc.StoreHeight?
    ensures Leads(e, base, s', t) && SameDataset(s, s') && s'.caches == s.caches && s'.log == s.log
    ensures var th, i := s.threads[t], s.threads[t].choice.slot;
            && s'.threads[t] == th.(pc := StoreHash)
            && s'.slots == s.slots[i := SlotOf(s, t).(height := th.call.seedHeight)]
  {
    s' := Go(e, base, s, t);
  }

  lemma StoresHash(e: Env, base: State, s: State, t: nat) returns (s': State)
    requires Leads(e, base, s, t) && Ready(s, t) && s.threads[t].pc.StoreHash?
    ensures Leads(e, base, s', t) && SameDataset(s, s') && s'.caches == s.caches && s'.log == s.log
    ensures var th, i := s.threads[t], s.threads[t].choice.slot;
            && s'.threads[t] == th.(pc := BindVm)
            && s'.slots == s.slots[i := SlotOf(s, t).(hash := th.call.seedHash)]
  {
    s' := Go(e, base, s, t);
  }

  lemma Recording(e: Env, base: State, s: State, t: nat) returns (s': State)
    requires Leads(e, base, s, t) && Ready(s, t) && s.threads[t].pc.StoreCache?
    ensures Leads(e, base, s', t) && SameDataset(s, s') && s'.caches == s.caches && s'.log == s.log
    ensures var th := s.threads[t];
            && s'.threads[t] == th.(pc := BindVm)
            && s'.slots == s.slots[th.choice.slot := Slot(th.call.seedHash, th.call.seedHeight, Some(th.cache))]
  {
    s' := StoresCache(e, base, s, t);
    s' := StoresHeight(e, base, s', t);
    s' := StoresHash(e, base, s', t);
  }

  lemma Filling(e: Env, base: State, s: State, t: nat) returns (s': State)
    requires Leads(e, base, s, t) && Inside(s, t) && s.threads[t].pc.LoadCache?
    ensures Leads(e, base, s', t) && SameDataset(s, s')
    ensures var th, i := s.threads[t], s.threads[t].choice.slot;
            && CacheOf(s, i) < |Allocated(s, i)|
            && s'.threads[t] == th.(pc := BindVm, cache := CacheOf(s, i))
            && s'.slots == s.slots[i := Slot(th.call.seedHash, th.call.seedHeight, Some(CacheOf(s, i)))]
            && s'.caches == Filled(s, i, th.call)
            && s'.log == s.log + Refills(s, t, i, th.call)
  {
    var i := s.threads[t].choice.slot;
    s' := Loads(e, base, s, t);
    s' := Checks(e, base, s', t);
    if UpToDate(s.slots[i], s.threads[t].call) {
      assert s.slots[i := s.slots[i]] == s.slots;
    } else {
      s' := Inits(e, base, s', t);
      s' := Recording(e, base, s', t);
    }
  }

  // ---------------------------------------------------------------------------------------------
  // A hash: the machine and the dataset
  // ---------------------------------------------------------------------------------------------

  /** Whether the call looks at the dataset: it asks for miners, and full memory is not disabled when it has
      to create a machine. */
  predicate UsesDataset(e: Env, vm: Vm, call: Call) {
    call.miners != 0 && (vm.NoVm? ==> !e.fullMemDisabled)
  }

  /** The dataset is there after the call. */
  predicate HasDataset(e: Env, s: State, vm: Vm, call: Call) {
    s.dataset || (UsesDataset(e, vm, call) && vm.NoVm? && e.datasetAllocates)
  }

  function DatasetHeight(e: Env, s: State, vm: Vm, call: Call): Uint64 {
    if UsesDataset(e, vm, call) && (if vm.NoVm? then !s.dataset && e.datasetAllocates else s.dataset)
    then call.seedHeight else s.datasetHeight
  }

  /** The machine after the call: a new one is full exactly when the call uses a dataset that is there; an
      existing one is rebound unless it is full or the call asks for miners. */
  function MachineOf(e: Env, s: State, vm: Vm, call: Call, c: nat): Vm {
    if vm.FullVm? then FullVm
    else if vm.NoVm? then
      (if UsesDataset(e, vm, call) && HasDataset(e, s, vm, call) then FullVm else LightVm(c, Some(call.seedHash)))
    else if call.miners != 0 then vm
    else LightVm(c, Some(call.seedHash))
  }

  /** The slot of the thread has the requested seed. */
  predicate Prepared(s: State, t: nat) {
    && Ready(s, t)
    && SlotOf(s, t).cache == Some(s.threads[t].cache) && s.threads[t].cache < |s.caches|
    && s.caches[s.threads[t].cache].key == Some(s.threads[t].call.seedHash)
  }

  predicate SameSlots(s: State, s': State) {
    s'.slots == s.slots && s'.caches == s.caches && s'.log == s.log
  }

  lemma BindsDirectly(e: Env, base: State, s: State, t: nat) returns (s': State)
    requires Leads(e, base, s, t) && Prepared(s, t) && s.threads[t].pc.BindVm?
    ensures Leads(e, base, s', t)
    ensures var th := s.threads[t];
            if UsesDataset(e, th.vm, th.call) then MovedOn(s, s', t, WantDataset, s.locks)
            else
              && SameData(s, s') && s'.locks == s.locks
              && s'.threads[t] == th.(pc := AfterBind(th), vm := MachineOf(e, s, th.vm, th.call, th.cache))
  {
    s' := Go(e, base, s, t);
  }

  lemma TakesDataset(e: Env, base: State, s: State, t: nat) returns (s': State)
    requires Leads(e, base, s, t) && Ready(s, t) && s.threads[t].pc.WantDataset? && s.locks.dataset == None
    ensures Leads(e, base, s', t) && MovedOn(s, s', t, UseDataset, s.locks.(dataset := Some(t)))
  {
    s' := Go(e, base, s, t);
  }

  lemma LooksAtDataset(e: Env, base: State, s: State, t: nat) returns (s': State)
    requires Leads(e, base, s, t) && Ready(s, t) && s.threads[t].pc.UseDataset?
    requires UsesDataset(e, s.threads[t].vm, s.threads[t].call)
    ensures Leads(e, base, s', t) && SameSlots(s, s') && s'.locks == s.locks
    ensures var th := s.threads[t];
            && s'.dataset == HasDataset(e, s, th.vm, th.call)
            && s'.datasetHeight == DatasetHeight(e, s, th.vm, th.call)
            && s'.threads[t] == th.(pc := LeaveDataset, full := if th.vm.NoVm? then s'.dataset else th.full)
  {
    s' := Go(e, base, s, t);
  }

  lemma LeavesDataset(e: Env, base: State, s: State, t: nat) returns (s': State)
    requires Leads(e, base, s, t) && Prepared(s, t) && s.threads[t].pc.LeaveDataset?
    ensures Leads(e, base, s', t) && s'.locks == s.locks.(dataset := None)
    ensures var th := s.threads[t];
            MovedOn(s, s', t, if th.vm.NoVm? then CreateVm else AfterBind(th), s.locks.(dataset := None))
  {
    s' := Go(e, base, s, t);
  }

  lemma Creates(e: Env, base: State, s: State, t: nat) returns (s': State)
    requires Leads(e, base, s, t) && Prepared(s, t) && s.threads[t].pc.CreateVm?
    ensures Leads(e, base, s', t) && SameData(s, s') && s'.locks == s.locks
    ensures var th := s.threads[t];
            s'.threads[t] == th.(pc := AfterBind(th),
                                 vm := if th.full then FullVm else LightVm(th.cache, Some(th.call.seedHash)))
  {
    s' := Go(e, base, s, t);
  }

  lemma Binding(e: Env, base: State, s: State, t: nat) returns (s': State)
    requires Leads(e, base, s, t) && Prepared(s, t) && s.threads[t].pc.BindVm? && s.locks.dataset == None
    ensures Leads(e, base, s', t) && SameSlots(s, s') && s'.locks == s.locks
    ensures var th := s.threads[t];
            && s'.dataset == HasDataset(e, s, th.vm, th.call)
            && s'.datasetHeight == DatasetHeight(e, s, th.vm, th.call)
            && s'.threads[t] == th.(pc := AfterBind(th), vm := MachineOf(e, s, th.vm, th.call, th.cache),
                                    full := s'.threads[t].full)
  {
    var th := s.threads[t];
    s' := BindsDirectly(e, base, s, t);
    if UsesDataset(e, th.vm, th.call) {
      s' := TakesDataset(e, base, s', t);
      s' := LooksAtDataset(e, base, s', t);
      s' := LeavesDataset(e, base, s', t);
      if th.vm.NoVm? {
        s' := Creates(e, base, s', t);
      }
    }
  }

  // ---------------------------------------------------------------------------------------------
  // A hash: computing it
  // ---------------------------------------------------------------------------------------------

  lemma HashesUnlocked(e: Env, base: State, s: State, t: nat) returns (s': State)
    requires Leads(e, base, s, t) && Ready(s, t) && s.threads[t].pc.HashFree?
    ensures Leads(e, base, s', t) && SameData(s.(log := s'.log), s') && s'.locks == s.locks
    ensures var th := s.threads[t];
            && s'.threads[t] == th.(pc := Idle)
            && s'.log == s.log + [Hashed(t, th.choice.slot, th.call, th.choice.alt, SourceOf(s, th.vm),
                                         th.mark, th.mined)]
  {
    s' := Go(e, base, s, t);
  }

  lemma Unlocks(e: Env, base: State, s: State, t: nat) returns (s': State)
    requires Leads(e, base, s, t) && Ready(s, t) && s.threads[t].pc.ReleaseSlot?
    requires s.locks == Holding(t, s.threads[t].choice.slot)
    ensures Leads(e, base, s', t) && SameData(s.(log := s'.log), s') && s'.locks == FREE
    ensures s'.threads[t] == s.threads[t].(pc := HashFree, mark := |s.log|)
    ensures s'.log == s.log + [Unlocked(t, s.threads[t].choice.slot)]
  {
    s' := Go(e, base, s, t);
  }

  lemma HashesLocked(e: Env, base: State, s: State, t: nat) returns (s': State)
    requires Leads(e, base, s, t) && Ready(s, t) && s.threads[t].pc.HashLocked?
    ensures Leads(e, base, s', t) && SameData(s.(log := s'.log), s') && s'.locks == s.locks
    ensures var th := s.threads[t];
            && s'.threads[t] == th.(pc := ReleaseAlt)
            && s'.log == s.log + [Hashed(t, th.choice.slot, th.call, th.choice.alt, SourceOf(s, th.vm),
                                         th.mark, th.mined)]
  {
    s' := Go(e, base, s, t);
  }

  lemma UnlocksLate(e: Env, base: State, s: State, t: nat) returns (s': State)
    requires Leads(e, base, s, t) && Ready(s, t) && s.threads[t].pc.ReleaseAlt?
    requires s.locks == Holding(t, s.threads[t].choice.slot)
    ensures Leads(e, base, s', t) && MovedOn(s, s', t, Idle, FREE)
  {
    s' := Go(e, base, s, t);
  }

  /** The hash, under the slot lock for an alt caller and after dropping it for any other. */
  lemma Hashing(e: Env, base: State, s: State, t: nat) returns (s': State)
    requires Leads(e, base, s, t) && Ready(s, t) && s.threads[t].pc == AfterBind(s.threads[t])
    requires s.locks == Holding(t, s.threads[t].choice.slot)
    ensures Leads(e, base, s', t) && SameData(s.(log := s'.log), s') && s'.locks == FREE
    ensures var th := s.threads[t];
            && s'.threads[t] == th.(pc := Idle, mark := s'.threads[t].mark)
            && s'.log == s.log + (if th.choice.alt then [] else [Unlocked(t, th.choice.slot)])
                 + [Hashed(t, th.choice.slot, th.call, th.choice.alt, SourceOf(s, th.vm), s'.threads[t].mark, th.mined)]
  {
    if s.threads[t].choice.alt {
      s' := HashesLocked(e, base, s, t);
      s' := UnlocksLate(e, base, s', t);
    } else {
      s' := Unlocks(e, base, s, t);
      s' := HashesUnlocked(e, base, s', t);
    }
  }

  /** What the hash was computed over: the dataset by a full machine, the requested seed by a machine bound in
      this call; a light machine that a call with miners finds is not bound again. */
  function SourceAfter(s: State, before: Vm, vm: Vm, call: Call): Source
    requires before.LightVm? && call.miners != 0 ==> before.cache < |s.caches|
  {
    if vm.FullVm? then Dataset
    else if before.LightVm? && call.miners != 0 then
      (if before.key.Some? && s.caches[before.cache].key == before.key then Key(before.key.value) else Disturbed)
    else Key(call.seedHash)
  }

  /** The effect of a call of thread t that finds the first state and leaves the second. */
  predicate CallEffect(e: Env, s: State, s': State, t: nat, call: Call, mined: bool)
    requires Ready(s, t)
  {
    var choice, vm := Chooses(s, call), s.threads[t].vm;
    var i := choice.slot;
    && t < |s'.threads| && CacheOf(s, i) < |Allocated(s, i)|
    && s'.slots == s.slots[i := Slot(call.seedHash, call.seedHeight, Some(CacheOf(s, i)))]
    && s'.caches == Filled(s, i, call) && s'.locks == FREE
    && s'.dataset == HasDataset(e, s, vm, call) && s'.datasetHeight == DatasetHeight(e, s, vm, call)
    && s'.threads[t].vm == MachineOf(e, s, vm, call, CacheOf(s, i))
    && (vm.LightVm? && call.miners != 0 ==> vm.cache < |s'.caches|)
    && s'.log == s.log + Refills(s, t, i, call) + (if choice.alt then [] else [Unlocked(t, i)])
         + [Hashed(t, i, call, choice.alt, SourceAfter(s', vm, s'.threads[t].vm, call), s'.threads[t].mark, mined)]
  }

  /** No mutex is held, and every slot agrees with its cache. */
  predicate Calm(s: State, t: nat) {
    && Ready(s, t) && s.locks == FREE && Consistent(s, 0) && Consistent(s, 1)
  }

  lemma FilledHasSeed(s: State, i: nat, call: Call)
    requires |s.slots| == 2 && Consistent(s, 0) && Consistent(s, 1) && i < 2
    ensures CacheOf(s, i) < |Allocated(s, i)| && Filled(s, i, call)[CacheOf(s, i)].key == Some(call.seedHash)
    ensures |s.caches| <= |Filled(s, i, call)|
  {
  }

  /** From the prepared slot to the end of the call. */
  lemma Finishes(e: Env, base: State, s: State, t: nat) returns (s': State)
    requires Leads(e, base, s, t) && Prepared(s, t) && s.threads[t].pc.BindVm?
    requires s.locks == Holding(t, s.threads[t].choice.slot)
    ensures Leads(e, base, s', t) && s'.threads[t].pc.Idle? && s'.locks == FREE
    ensures s'.slots == s.slots && s'.caches == s.caches
    ensures var th := s.threads[t];
            && (th.vm.LightVm? && th.call.miners != 0 ==> th.vm.cache < |s'.caches|)
            && s'.dataset == HasDataset(e, s, th.vm, th.call)
            && s'.datasetHeight == DatasetHeight(e, s, th.vm, th.call)
            && s'.threads[t].vm == MachineOf(e, s, th.vm, th.call, th.cache)
            && s'.log == s.log + (if th.choice.alt then [] else [Unlocked(t, th.choice.slot)])
                 + [Hashed(t, th.choice.slot, th.call, th.choice.alt,
                           SourceAfter(s', th.vm, s'.threads[t].vm, th.call), s'.threads[t].mark, th.mined)]
  {
    s' := Binding(e, base, s, t);
    s' := Hashing(e, base, s', t);
  }

  /** From the start of the call to the prepared slot. */
  lemma Prepares(e: Env, base: State, s: State, t: nat) returns (s': State)
    requires Leads(e, base, s, t) && Calm(s, t) && s.threads[t].pc.WantGlobal?
    ensures Leads(e, base, s', t) && Prepared(s', t)
    ensures s'.dataset == s.dataset && s'.datasetHeight == s.datasetHeight
    ensures var th := s.threads[t];
            var choice := Chooses(s, th.call);
            var i := choice.slot;
            && CacheOf(s, i) < |Allocated(s, i)|
            && s'.threads[t] == th.(pc := BindVm, choice := choice, cache := CacheOf(s, i))
            && s'.slots == s.slots[i := Slot(th.call.seedHash, th.call.seedHeight, Some(CacheOf(s, i)))]
            && s'.caches == Filled(s, i, th.call) && s'.locks == Holding(t, i)
            && s'.log == s.log + Refills(s, t, i, th.call)
  {
    FilledHasSeed(s, Chooses(s, s.threads[t].call).slot, s.threads[t].call);
    s' := Choosing(e, base, s, t);
    s' := Filling(e, base, s', t);
  }

  lemma Calls(e: Env, base: State, s: State, t: nat) returns (s': State)
    requires Leads(e, base, s, t) && Calm(s, t) && s.threads[t].pc.WantGlobal?
    ensures Leads(e, base, s', t) && s'.threads[t].pc.Idle?
    ensures CallEffect(e, s, s', t, s.threads[t].call, s.threads[t].mined)
  {
    s' := Prepares(e, base, s, t);
    s' := Finishes(e, base, s', t);
  }

  lemma CallBegins(e: Env, s: State, t: nat, call: Call)
    requires Inv(s) && s.locks == FREE && Enabled(s, Begin(t, SlowHash(call)))
    ensures var begun := Apply(e, s, Begin(t, SlowHash(call)));
            && Calm(s, t) && Calm(begun, t) && SameData(s, begun)
            && begun.threads[t] == s.threads[t].(pc := WantGlobal, call := call,
                                                 mined := s.threads[t].mined || call.miners != 0)
  {
  }

  lemma SameEffect(e: Env, s: State, begun: State, s': State, t: nat, call: Call, mined: bool)
    requires Ready(s, t) && Ready(begun, t) && SameData(s, begun) && begun.threads[t].vm == s.threads[t].vm
    requires CallEffect(e, begun, s', t, call, mined)
    ensures CallEffect(e, s, s', t, call, mined)
  {
  }

  /** A call whose steps are not interleaved with others records its seed and height in the slot that its fields
      choose, refills the slot's cache unless the same seed is recorded there for the same height, goes through
      the dataset as its miners ask, and hashes with its machine; all mutexes are free again. */
  lemma CallAlone(e: Env, s: State, t: nat, call: Call) returns (s': State)
    requires Inv(s) && s.locks == FREE && Enabled(s, Begin(t, SlowHash(call)))
    ensures Leads(e, Apply(e, s, Begin(t, SlowHash(call))), s', t) && s'.threads[t].pc.Idle?
    ensures CallEffect(e, s, s', t, call, s.threads[t].mined || call.miners != 0)
  {
    var begun := Apply(e, s, Begin(t, SlowHash(call)));
    CallBegins(e, s, t, call);
    Start(e, begun, t);
    s' := Calls(e, begun, begun, t);
    SameEffect(e, s, begun, s', t, call, begun.threads[t].mined);
  }

  /** A call with miners does not rebind the light machine it finds, so even alone it hashes with its own seed if
      and only if the machine was bound to that seed before, over a cache that has it after the slot's refill. */
  lemma MinersKeepLightMachine(e: Env, s: State, t: nat, call: Call) returns (s': State)
    requires Inv(s) && s.locks == FREE && Enabled(s, Begin(t, SlowHash(call)))
    requires s.threads[t].vm.LightVm? && call.miners != 0
    ensures Leads(e, Apply(e, s, Begin(t, SlowHash(call))), s', t) && s'.threads[t].pc.Idle? && s'.log != []
    ensures var ev, vm, i := s'.log[|s'.log| - 1], s.threads[t].vm, Chooses(s, call).slot;
            && ev.Hashed? && ev.thread == t && ev.call == call
            && (ev.source == Key(call.seedHash) <==>
                  vm.key == Some(call.seedHash)
                  && (s.slots[i].cache == Some(vm.cache) || s.caches[vm.cache].key == vm.key))
  {
    s' := CallAlone(e, s, t, call);
  }
}
