/** The hash engine of src/qrandomx/rx-slow-hash.c as the atomic steps of any number of threads.

    A thread's program counter names the next access it makes to shared state. The log, the `home` of
    a cache, and a thread's `mark` and `mined` are history: no step depends on them. A light machine is
    prepared for the key its cache had when it was bound; a hash over a cache with another key by then
    counts as disturbed. */
module EngineSteps {
  import opened Basics
  import opened SeedEpochs

  const HASH_SIZE: nat := 32

  type Seed = s: Bytes | |s| == HASH_SIZE
    witness [0, 0, 0, 0, 0, 0, 0, 0, 0, 0, 0, 0, 0, 0, 0, 0,
             0, 0, 0, 0, 0, 0, 0, 0, 0, 0, 0, 0, 0, 0, 0, 0]

  const ZERO_SEED: Seed := [0, 0, 0, 0, 0, 0, 0, 0, 0, 0, 0, 0, 0, 0, 0, 0,
                             0, 0, 0, 0, 0, 0, 0, 0, 0, 0, 0, 0, 0, 0, 0, 0]

  datatype Call = Call(mainHeight: Uint64, seedHeight: Uint64, seedHash: Seed, data: Bytes,
                       miners: nat, isAlt: bool)

  datatype Operation =
    | SlowHash(call: Call)
    | Reorg(split: Uint64)
    | StopMining
    | FreeState

  datatype Cache = Cache(key: Option<Seed>, home: nat)

  datatype Slot = Slot(hash: Seed, height: Uint64, cache: Option<nat>)

  /** The owners of rx_mutex, of the two rs_mutex and of rx_dataset_mutex. */
  datatype Locks = Locks(global: Option<nat>, slots: seq<Option<nat>>, dataset: Option<nat>)

  datatype Vm = NoVm | LightVm(cache: nat, key: Option<Seed>) | FullVm

  datatype Pc =
    | Idle
    | WantGlobal | Select | WantSlot | DropGlobal
    | LoadCache | CheckSeed | InitCache | StoreCache | StoreHeight | StoreHash
    | BindVm | WantDataset | UseDataset | LeaveDataset | CreateVm
    | ReleaseSlot | HashFree | HashLocked | ReleaseAlt
    | ReorgWant | ReorgFirst | ReorgSecond | ReorgRelease
    | StopWant | StopBody | StopRelease

  datatype Thread = Thread(pc: Pc, call: Call, choice: Choice, cache: nat, full: bool, vm: Vm,
                           split: Uint64, mark: nat, mined: bool)

  /** What a hash computation read: a cache under the key it was bound with, a cache that has another key
      by then, or the full dataset. */
  datatype Source = Key(seed: Seed) | Disturbed | Dataset

  datatype Event =
    | Refilled(thread: nat, slot: nat, seed: Seed)
    | Unlocked(thread: nat, slot: nat)
    | Hashed(thread: nat, slot: nat, call: Call, alt: bool, source: Source, mark: nat, mined: bool)

  /** Whether full-memory mode is masked out, and whether the dataset can be allocated. */
  datatype Env = Env(fullMemDisabled: bool, datasetAllocates: bool)

  datatype State = State(locks: Locks, slots: seq<Slot>, dataset: bool, datasetHeight: Uint64,
                         caches: seq<Cache>, threads: seq<Thread>, log: seq<Event>)

  datatype Action = Advance(thread: nat) | Begin(thread: nat, op: Operation)

  const NO_CALL := Call(0, 0, ZERO_SEED, [], 0, false)
  const IDLE_THREAD := Thread(Idle, NO_CALL, Choice(0, false), 0, false, NoVm, 0, 0, false)
  const EMPTY_SLOT := Slot(ZERO_SEED, 0, None)

  function Initial(n: nat): State {
    State(Locks(None, [None, None], None), [EMPTY_SLOT, EMPTY_SLOT], false, 0, [],
          seq(n, _ => IDLE_THREAD), [])
  }

  predicate Entering(pc: Pc) {
    pc.WantGlobal? || pc.Select? || pc.WantSlot? || pc.DropGlobal? || pc.LoadCache?
  }

  /** The local variable `cache` is live. */
  predicate Refilling(pc: Pc) {
    pc.CheckSeed? || pc.InitCache? || pc.StoreCache? || pc.StoreHeight? || pc.StoreHash?
  }

  /** The slot has the requested seed and the machine is being created or rebound. */
  predicate Binding(pc: Pc) {
    pc.BindVm? || pc.WantDataset? || pc.UseDataset? || pc.LeaveDataset? || pc.CreateVm?
  }

  predicate Finishing(pc: Pc) {
    pc.ReleaseSlot? || pc.HashFree? || pc.HashLocked? || pc.ReleaseAlt?
  }

  predicate InCall(pc: Pc) {
    Entering(pc) || Refilling(pc) || Binding(pc) || Finishing(pc)
  }

  /** Every index and pointer a thread may use at its program counter is valid. */
  predicate Ready(s: State, t: nat) {
    && |s.slots| == |s.locks.slots| == 2 && t < |s.threads|
    && var th := s.threads[t];
    && th.choice.slot < 2
    && (Refilling(th.pc) ==> th.cache < |s.caches|)
    && (th.vm.LightVm? ==> th.vm.cache < |s.caches|)
    && (Binding(th.pc) ==> SlotOf(s, t).cache.Some? && SlotOf(s, t).cache.value < |s.caches|)
  }

  predicate Shaped(s: State) {
    |s.slots| == |s.locks.slots| == 2 && forall t :: 0 <= t < |s.threads| ==> Ready(s, t)
  }

  function SlotOf(s: State, t: nat): Slot
    requires |s.slots| == 2 && t < |s.threads| && s.threads[t].choice.slot < 2
  {
    s.slots[s.threads[t].choice.slot]
  }

  predicate Blocked(s: State, t: nat)
    requires Ready(s, t)
  {
    match s.threads[t].pc
    case WantGlobal => s.locks.global.Some?
    case ReorgWant => s.locks.global.Some?
    case WantSlot => s.locks.slots[s.threads[t].choice.slot].Some?
    case WantDataset => s.locks.dataset.Some?
    case StopWant => s.locks.dataset.Some?
    case _ => false
  }

  predicate Enabled(s: State, a: Action) {
    && Ready(s, a.thread)
    && match a
       case Advance(t) => !s.threads[t].pc.Idle? && !Blocked(s, t)
       case Begin(t, op) => s.threads[t].pc.Idle?
  }

  // ---------------------------------------------------------------------------------------------
  // Steps
  // ---------------------------------------------------------------------------------------------

  /** The lock operation made at a program counter. */
  function LockEffect(locks: Locks, t: nat, pc: Pc, slot: nat): Locks
    requires |locks.slots| == 2 && slot < 2
  {
    match pc
    case WantGlobal => locks.(global := Some(t))
    case DropGlobal => locks.(global := None)
    case WantSlot => locks.(slots := locks.slots[slot := Some(t)])
    case ReleaseSlot => locks.(slots := locks.slots[slot := None])
    case ReleaseAlt => locks.(slots := locks.slots[slot := None])
    case WantDataset => locks.(dataset := Some(t))
    case LeaveDataset => locks.(dataset := None)
    case ReorgWant => locks.(global := Some(t))
    case ReorgRelease => locks.(global := None)
    case StopWant => locks.(dataset := Some(t))
    case StopRelease => locks.(dataset := None)
    case _ => locks
  }

  function With(s: State, t: nat, th: Thread): State
    requires t < |s.threads|
  {
    s.(threads := s.threads[t := th])
  }

  function At(s: State, t: nat, pc: Pc): State
    requires t < |s.threads|
  {
    With(s, t, s.threads[t].(pc := pc))
  }

  function WithSlot(s: State, i: nat, slot: Slot): State
    requires i < |s.slots|
  {
    s.(slots := s.slots[i := slot])
  }

  function BeginOperation(s: State, t: nat, op: Operation): State
    requires t < |s.threads|
  {
    var th := s.threads[t];
    match op
    case SlowHash(call) =>
      With(s, t, th.(pc := WantGlobal, call := call, mined := th.mined || call.miners != 0))
    case Reorg(split) => With(s, t, th.(pc := ReorgWant, split := split))
    case StopMining => At(s, t, StopWant)
    case FreeState => With(s, t, th.(vm := NoVm))
  }

  /** Lines 197-214: the slot is chosen under the global mutex. */
  function ChooseStep(s: State, t: nat): State
    requires Ready(s, t)
  {
    var th := s.threads[t];
    var seen := s.slots[Toggle(th.call.mainHeight)].hash;
    var choice := ChooseSlot(th.call.mainHeight, th.call.seedHeight, th.call.seedHash, th.call.isAlt, seen);
    With(s, t, th.(pc := WantSlot, choice := choice))
  }

  /** Lines 218-228: the cache of the slot, allocated when the slot has none. */
  function LoadStep(s: State, t: nat): State
    requires Ready(s, t)
  {
    var th := s.threads[t];
    match SlotOf(s, t).cache
    case Some(c) => With(s, t, th.(pc := CheckSeed, cache := c))
    case None =>
      With(s, t, th.(pc := CheckSeed, cache := |s.caches|)).(
        caches := s.caches + [Cache(None, th.choice.slot)])
  }

  function EnterStep(s: State, t: nat): State
    requires Ready(s, t) && Entering(s.threads[t].pc)
  {
    match s.threads[t].pc
    case WantGlobal => At(s, t, Select)
    case Select => ChooseStep(s, t)
    case WantSlot => At(s, t, DropGlobal)
    case DropGlobal => At(s, t, LoadCache)
    case LoadCache => LoadStep(s, t)
  }

  /** Line 229. */
  predicate SlotMatches(slot: Slot, call: Call) {
    slot.height == call.seedHeight && slot.cache.Some? && slot.hash == call.seedHash
  }

  /** Line 230. */
  function InitStep(s: State, t: nat): State
    requires Ready(s, t) && s.threads[t].pc.InitCache?
  {
    var th := s.threads[t];
    var cache := s.caches[th.cache];
    At(s, t, StoreCache).(
      caches := s.caches[th.cache := cache.(key := Some(th.call.seedHash))],
      log := s.log + [Refilled(t, th.choice.slot, th.call.seedHash)])
  }

  /** Lines 229-234. */
  function RefillStep(s: State, t: nat): State
    requires Ready(s, t) && Refilling(s.threads[t].pc)
  {
    var th, i, slot := s.threads[t], s.threads[t].choice.slot, SlotOf(s, t);
    match th.pc
    case CheckSeed => At(s, t, if SlotMatches(slot, th.call) then BindVm else InitCache)
    case InitCache => InitStep(s, t)
    case StoreCache => At(WithSlot(s, i, slot.(cache := Some(th.cache))), t, StoreHeight)
    case StoreHeight => At(WithSlot(s, i, slot.(height := th.call.seedHeight)), t, StoreHash)
    case StoreHash => At(WithSlot(s, i, slot.(hash := th.call.seedHash)), t, BindVm)
  }

  function AfterBind(th: Thread): Pc {
    if th.choice.alt then HashLocked else ReleaseSlot
  }

  function BoundVm(s: State, t: nat): Vm
    requires Ready(s, t) && Binding(s.threads[t].pc)
  {
    var c := SlotOf(s, t).cache.value;
    LightVm(c, s.caches[c].key)
  }

  /** Lines 244-256 and 271-272. */
  function DatasetStep(e: Env, s: State, t: nat): State
    requires t < |s.threads|
  {
    var th := s.threads[t];
    if th.vm.NoVm? then
      var present := s.dataset || e.datasetAllocates;
      With(s, t, th.(pc := LeaveDataset, full := present)).(
        dataset := present,
        datasetHeight := if !s.dataset && present then th.call.seedHeight else s.datasetHeight)
    else
      At(s, t, LeaveDataset).(
        datasetHeight := if s.dataset then th.call.seedHeight else s.datasetHeight)
  }

  /** Lines 235-277: create a light machine, rebind it, or go through the dataset. */
  function BindStep(e: Env, s: State, t: nat): State
    requires Ready(s, t) && Binding(s.threads[t].pc)
  {
    var th := s.threads[t];
    match th.pc
    case BindVm =>
      if th.call.miners != 0 && !(th.vm.NoVm? && e.fullMemDisabled) then At(s, t, WantDataset)
      else With(s, t, th.(pc := AfterBind(th), vm := if th.vm.FullVm? then FullVm else BoundVm(s, t)))
    case WantDataset => At(s, t, UseDataset)
    case UseDataset => DatasetStep(e, s, t)
    case LeaveDataset => At(s, t, if th.vm.NoVm? then CreateVm else AfterBind(th))
    case CreateVm => With(s, t, th.(pc := AfterBind(th), vm := if th.full then FullVm else BoundVm(s, t)))
  }

  function SourceOf(s: State, vm: Vm): Source
    requires vm.LightVm? ==> vm.cache < |s.caches|
  {
    match vm
    case LightVm(c, key) =>
      if key.Some? && s.caches[c].key == key then Key(key.value) else Disturbed
    case FullVm => Dataset
    case NoVm => Disturbed
  }

  function HashStep(s: State, t: nat, next: Pc): State
    requires Ready(s, t)
  {
    var th := s.threads[t];
    At(s, t, next).(
      log := s.log + [Hashed(t, th.choice.slot, th.call, th.choice.alt, SourceOf(s, th.vm), th.mark, th.mined)])
  }

  /** Lines 278-285: main callers unlock before hashing, alt callers after. */
  function FinishStep(s: State, t: nat): State
    requires Ready(s, t) && Finishing(s.threads[t].pc)
  {
    var th := s.threads[t];
    match th.pc
    case ReleaseSlot =>
      With(s, t, th.(pc := HashFree, mark := |s.log|)).(log := s.log + [Unlocked(t, th.choice.slot)])
    case HashFree => HashStep(s, t, Idle)
    case HashLocked => HashStep(s, t, ReleaseAlt)
    case ReleaseAlt => At(s, t, Idle)
  }

  /** Lines 118-122 for one slot. */
  function ReorgStep(s: State, t: nat, i: nat, next: Pc): State
    requires Ready(s, t) && i < 2
  {
    if s.threads[t].split <= s.slots[i].height then
      At(WithSlot(s, i, s.slots[i].(height := 1)), t, next).(
        datasetHeight := if s.slots[i].height == s.datasetHeight then 1 else s.datasetHeight)
    else
      At(s, t, next)
  }

  /** Lines 114-125 and 297-305. */
  function OutsideStep(s: State, t: nat): State
    requires Ready(s, t)
  {
    match s.threads[t].pc
    case ReorgWant => At(s, t, ReorgFirst)
    case ReorgFirst => ReorgStep(s, t, 0, ReorgSecond)
    case ReorgSecond => ReorgStep(s, t, 1, ReorgRelease)
    case ReorgRelease => At(s, t, Idle)
    case StopWant => At(s, t, StopBody)
    case StopBody => At(s, t, StopRelease).(dataset := false)
    case StopRelease => At(s, t, Idle)
    case _ => s
  }

  /** The effect of thread t's next access on everything but the locks. */
  function DataStep(e: Env, s: State, t: nat): State
    requires Ready(s, t)
  {
    var pc := s.threads[t].pc;
    if Entering(pc) then EnterStep(s, t)
    else if Refilling(pc) then RefillStep(s, t)
    else if Binding(pc) then BindStep(e, s, t)
    else if Finishing(pc) then FinishStep(s, t)
    else OutsideStep(s, t)
  }

  function Apply(e: Env, s: State, a: Action): State
    requires Enabled(s, a)
  {
    match a
    case Advance(t) =>
      var th := s.threads[t];
      DataStep(e, s, t).(locks := LockEffect(s.locks, t, th.pc, th.choice.slot))
    case Begin(t, op) => BeginOperation(s, t, op)
  }

  /** A schedule is a list of actions; an action that is not enabled when its turn comes does nothing. */
  function After(e: Env, s: State, schedule: seq<Action>): State {
    if schedule == [] then s
    else
      var before := After(e, s, schedule[..|schedule| - 1]);
      var a := schedule[|schedule| - 1];
      if Enabled(before, a) then Apply(e, before, a) else before
  }
}
