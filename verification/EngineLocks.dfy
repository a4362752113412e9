/** The lock discipline of the hash engine: ownership, ordering, release, and freedom from deadlock. */
module EngineLocks {
  import opened Basics
  import opened EngineSteps

  const FREE := Locks(None, [None, None], None)

  function Holding(t: nat, i: nat): Locks
    requires i < 2
  {
    Locks(None, [None, None][i := Some(t)], None)
  }

  predicate HoldsGlobal(pc: Pc) {
    pc.Select? || pc.WantSlot? || pc.DropGlobal? || pc.ReorgFirst? || pc.ReorgSecond? || pc.ReorgRelease?
  }

  predicate HoldsSlot(pc: Pc) {
    pc.DropGlobal? || pc.LoadCache? || Refilling(pc) || Binding(pc)
    || pc.ReleaseSlot? || pc.HashLocked? || pc.ReleaseAlt?
  }

  predicate HoldsDataset(pc: Pc) {
    pc.UseDataset? || pc.LeaveDataset? || pc.StopBody? || pc.StopRelease?
  }

  predicate Owns(th: Thread, i: nat) {
    HoldsSlot(th.pc) && th.choice.slot == i
  }

  ghost predicate GlobalOk(threads: seq<Thread>, owner: Option<nat>) {
    && (owner.Some? ==> owner.value < |threads|)
    && (forall t :: 0 <= t < |threads| ==> (HoldsGlobal(threads[t].pc) <==> owner == Some(t)))
  }

  ghost predicate DatasetOk(threads: seq<Thread>, owner: Option<nat>) {
    && (owner.Some? ==> owner.value < |threads|)
    && (forall t :: 0 <= t < |threads| ==> (HoldsDataset(threads[t].pc) <==> owner == Some(t)))
  }

  ghost predicate SlotOk(threads: seq<Thread>, owner: Option<nat>, i: nat) {
    && (owner.Some? ==> owner.value < |threads|)
    && (forall t :: 0 <= t < |threads| ==> (Owns(threads[t], i) <==> owner == Some(t)))
  }

  /** Each mutex is owned by exactly the thread whose program counter says so. */
  ghost predicate LockInv(threads: seq<Thread>, locks: Locks) {
    && |locks.slots| == 2
    && (forall t :: 0 <= t < |threads| ==> threads[t].choice.slot < 2)
    && GlobalOk(threads, locks.global)
    && DatasetOk(threads, locks.dataset)
    && SlotOk(threads, locks.slots[0], 0)
    && SlotOk(threads, locks.slots[1], 1)
  }

  // ---------------------------------------------------------------------------------------------
  // Control flow
  // ---------------------------------------------------------------------------------------------

  /** The program counters that may follow one. */
  predicate Successor(pc: Pc, alt: bool, next: Pc) {
    match pc
    case Idle => next.Idle? || next.WantGlobal? || next.ReorgWant? || next.StopWant?
    case WantGlobal => next.Select?
    case Select => next.WantSlot?
    case WantSlot => next.DropGlobal?
    case DropGlobal => next.LoadCache?
    case LoadCache => next.CheckSeed?
    case CheckSeed => next.InitCache? || next.BindVm?
    case InitCache => next.StoreCache?
    case StoreCache => next.StoreHeight?
    case StoreHeight => next.StoreHash?
    case StoreHash => next.BindVm?
    case BindVm => next.WantDataset? || next == (if alt then HashLocked else ReleaseSlot)
    case WantDataset => next.UseDataset?
    case UseDataset => next.LeaveDataset?
    case LeaveDataset => next.CreateVm? || next == (if alt then HashLocked else ReleaseSlot)
    case CreateVm => next == if alt then HashLocked else ReleaseSlot
    case ReleaseSlot => next.HashFree?
    case HashFree => next.Idle?
    case HashLocked => next.ReleaseAlt?
    case ReleaseAlt => next.Idle?
    case ReorgWant => next.ReorgFirst?
    case ReorgFirst => next.ReorgSecond?
    case ReorgSecond => next.ReorgRelease?
    case ReorgRelease => next.Idle?
    case StopWant => next.StopBody?
    case StopBody => next.StopRelease?
    case StopRelease => next.Idle?
  }

  predicate OthersKept(threads: seq<Thread>, threads': seq<Thread>, t: nat) {
    && t < |threads'| == |threads|
    && (forall u :: 0 <= u < |threads| && u != t ==> threads'[u] == threads[u])
  }

  /** Thread t alone moved, to a successor, and only the slot choice changes the slot. */
  predicate Moved(threads: seq<Thread>, threads': seq<Thread>, t: nat) {
    && OthersKept(threads, threads', t)
    && Successor(threads[t].pc, threads[t].choice.alt, threads'[t].pc)
    && (if threads[t].pc.Select? then threads'[t].choice.slot < 2
        else threads'[t].choice == threads[t].choice)
    && (!threads[t].pc.Idle? ==> threads'[t].call == threads[t].call && threads'[t].mined == threads[t].mined)
    && (!(threads[t].pc.Idle? || threads[t].pc.BindVm? || threads[t].pc.CreateVm?) ==>
          threads'[t].vm == threads[t].vm)
  }

  lemma EnterMoves(s: State, t: nat)
    requires Ready(s, t) && Entering(s.threads[t].pc)
    ensures Moved(s.threads, EnterStep(s, t).threads, t)
  {
  }

  lemma RefillMoves(s: State, t: nat)
    requires Ready(s, t) && Refilling(s.threads[t].pc)
    ensures Moved(s.threads, RefillStep(s, t).threads, t)
  {
  }

  lemma BindMoves(e: Env, s: State, t: nat)
    requires Ready(s, t) && Binding(s.threads[t].pc)
    ensures Moved(s.threads, BindStep(e, s, t).threads, t)
  {
  }

  lemma FinishMoves(s: State, t: nat)
    requires Ready(s, t) && Finishing(s.threads[t].pc)
    ensures Moved(s.threads, FinishStep(s, t).threads, t)
  {
  }

  predicate Stopping(pc: Pc) {
    pc.StopWant? || pc.StopBody? || pc.StopRelease?
  }

  lemma StopMoves(s: State, t: nat)
    requires Ready(s, t) && Stopping(s.threads[t].pc)
    ensures Moved(s.threads, OutsideStep(s, t).threads, t)
  {
  }

  lemma ReorgMoves(s: State, t: nat)
    requires Ready(s, t) && !s.threads[t].pc.Idle? && !InCall(s.threads[t].pc) && !Stopping(s.threads[t].pc)
    ensures Moved(s.threads, OutsideStep(s, t).threads, t)
  {
  }

  lemma DataMoves(e: Env, s: State, t: nat)
    requires Ready(s, t) && !s.threads[t].pc.Idle?
    ensures Moved(s.threads, DataStep(e, s, t).threads, t)
  {
    var pc := s.threads[t].pc;
    if Entering(pc) {
      EnterMoves(s, t);
    } else if Refilling(pc) {
      RefillMoves(s, t);
    } else if Binding(pc) {
      BindMoves(e, s, t);
    } else if Finishing(pc) {
      FinishMoves(s, t);
    } else if Stopping(pc) {
      StopMoves(s, t);
    } else {
      ReorgMoves(s, t);
    }
  }

  lemma Moves(e: Env, s: State, a: Action)
    requires Enabled(s, a)
    ensures Moved(s.threads, Apply(e, s, a).threads, a.thread)
  {
    if a.Advance? {
      DataMoves(e, s, a.thread);
    }
  }

  // ---------------------------------------------------------------------------------------------
  // Ownership
  // ---------------------------------------------------------------------------------------------

  /** A step leaves a lock alone, takes it when it is free, or gives up the thread's own. */
  predicate LockMove(before: Option<nat>, after: Option<nat>, t: nat, held: bool, holds: bool) {
    || (after == before && (holds <==> held))
    || (before == None && after == Some(t) && holds)
    || (before == Some(t) && after == None && !holds)
  }

  predicate LockMoves(locks: Locks, locks': Locks, t: nat, th: Thread, th': Thread)
    requires |locks.slots| == |locks'.slots| == 2
  {
    && LockMove(locks.global, locks'.global, t, HoldsGlobal(th.pc), HoldsGlobal(th'.pc))
    && LockMove(locks.dataset, locks'.dataset, t, HoldsDataset(th.pc), HoldsDataset(th'.pc))
    && LockMove(locks.slots[0], locks'.slots[0], t, Owns(th, 0), Owns(th', 0))
    && LockMove(locks.slots[1], locks'.slots[1], t, Owns(th, 1), Owns(th', 1))
  }

  /** A mutex is only ever taken when it is free and only ever released by its owner. */
  lemma LockDiscipline(e: Env, s: State, a: Action)
    requires LockInv(s.threads, s.locks) && Enabled(s, a)
    ensures var s' := Apply(e, s, a);
            |s'.locks.slots| == 2 && a.thread < |s'.threads|
            && LockMoves(s.locks, s'.locks, a.thread, s.threads[a.thread], s'.threads[a.thread])
  {
    var t := a.thread;
    Moves(e, s, a);
    assert HoldsGlobal(s.threads[t].pc) <==> s.locks.global == Some(t);
    assert HoldsDataset(s.threads[t].pc) <==> s.locks.dataset == Some(t);
    assert Owns(s.threads[t], 0) <==> s.locks.slots[0] == Some(t);
    assert Owns(s.threads[t], 1) <==> s.locks.slots[1] == Some(t);
    EffectMatches(s, a, Apply(e, s, a));
  }

  lemma EffectMatches(s: State, a: Action, s': State)
    requires Enabled(s, a) && |s.locks.slots| == 2
    requires Moved(s.threads, s'.threads, a.thread)
    requires s'.locks == if a.Begin? then s.locks
                         else LockEffect(s.locks, a.thread, s.threads[a.thread].pc, s.threads[a.thread].choice.slot)
    requires HoldsGlobal(s.threads[a.thread].pc) <==> s.locks.global == Some(a.thread)
    requires HoldsDataset(s.threads[a.thread].pc) <==> s.locks.dataset == Some(a.thread)
    requires Owns(s.threads[a.thread], 0) <==> s.locks.slots[0] == Some(a.thread)
    requires Owns(s.threads[a.thread], 1) <==> s.locks.slots[1] == Some(a.thread)
    ensures |s'.locks.slots| == 2
    ensures LockMoves(s.locks, s'.locks, a.thread, s.threads[a.thread], s'.threads[a.thread])
  {
    var th, th' := s.threads[a.thread], s'.threads[a.thread];
    EffectOnSlot(s, a, th', s'.locks, 0);
    EffectOnSlot(s, a, th', s'.locks, 1);
    EffectOnOthers(s, a, th', s'.locks);
  }

  lemma EffectOnSlot(s: State, a: Action, th': Thread, locks': Locks, i: nat)
    requires Enabled(s, a) && |s.locks.slots| == 2 && i < 2
    requires Successor(s.threads[a.thread].pc, s.threads[a.thread].choice.alt, th'.pc)
    requires !s.threads[a.thread].pc.Select? ==> th'.choice == s.threads[a.thread].choice
    requires locks' == if a.Begin? then s.locks
                       else LockEffect(s.locks, a.thread, s.threads[a.thread].pc, s.threads[a.thread].choice.slot)
    requires Owns(s.threads[a.thread], i) <==> s.locks.slots[i] == Some(a.thread)
    ensures |locks'.slots| == 2
    ensures LockMove(s.locks.slots[i], locks'.slots[i], a.thread, Owns(s.threads[a.thread], i), Owns(th', i))
  {
  }

  lemma EffectOnOthers(s: State, a: Action, th': Thread, locks': Locks)
    requires Enabled(s, a) && |s.locks.slots| == 2
    requires Successor(s.threads[a.thread].pc, s.threads[a.thread].choice.alt, th'.pc)
    requires locks' == if a.Begin? then s.locks
                       else LockEffect(s.locks, a.thread, s.threads[a.thread].pc, s.threads[a.thread].choice.slot)
    requires HoldsGlobal(s.threads[a.thread].pc) <==> s.locks.global == Some(a.thread)
    requires HoldsDataset(s.threads[a.thread].pc) <==> s.locks.dataset == Some(a.thread)
    ensures LockMove(s.locks.global, locks'.global, a.thread, HoldsGlobal(s.threads[a.thread].pc), HoldsGlobal(th'.pc))
    ensures LockMove(s.locks.dataset, locks'.dataset, a.thread,
                     HoldsDataset(s.threads[a.thread].pc), HoldsDataset(th'.pc))
  {
  }

  lemma LockStep(e: Env, s: State, a: Action)
    requires LockInv(s.threads, s.locks) && Enabled(s, a)
    ensures LockInv(Apply(e, s, a).threads, Apply(e, s, a).locks)
  {
    Moves(e, s, a);
    LockDiscipline(e, s, a);
    LockFrame(s.threads, s.locks, Apply(e, s, a).threads, Apply(e, s, a).locks, a.thread);
  }

  lemma LockFrame(threads: seq<Thread>, locks: Locks, threads': seq<Thread>, locks': Locks, t: nat)
    requires LockInv(threads, locks) && Moved(threads, threads', t)
    requires |locks'.slots| == 2 && LockMoves(locks, locks', t, threads[t], threads'[t])
    ensures LockInv(threads', locks')
  {
    SlotFrame(threads, locks.slots[0], threads', locks'.slots[0], t, 0);
    SlotFrame(threads, locks.slots[1], threads', locks'.slots[1], t, 1);
    assert GlobalOk(threads', locks'.global);
    assert DatasetOk(threads', locks'.dataset);
  }

  lemma SlotFrame(threads: seq<Thread>, owner: Option<nat>, threads': seq<Thread>, owner': Option<nat>,
                  t: nat, i: nat)
    requires SlotOk(threads, owner, i) && OthersKept(threads, threads', t)
    requires LockMove(owner, owner', t, Owns(threads[t], i), Owns(threads'[t], i))
    ensures SlotOk(threads', owner', i)
  {
  }

  // ---------------------------------------------------------------------------------------------
  // Deadlock freedom and termination
  // ---------------------------------------------------------------------------------------------

  /** The owner of the mutex a thread is waiting for. */
  function WaitsFor(s: State, t: nat): (u: nat)
    requires Ready(s, t) && Blocked(s, t)
  {
    match s.threads[t].pc
    case WantGlobal => s.locks.global.value
    case ReorgWant => s.locks.global.value
    case WantSlot => s.locks.slots[s.threads[t].choice.slot].value
    case WantDataset => s.locks.dataset.value
    case StopWant => s.locks.dataset.value
  }

  /** rx_mutex before rs_mutex before rx_dataset_mutex. */
  function WaitLevel(pc: Pc): nat {
    match pc
    case WantGlobal => 1
    case ReorgWant => 1
    case WantSlot => 2
    case WantDataset => 3
    case StopWant => 3
    case _ => 0
  }

  /** Whoever is waited for is either running or waits for a mutex later in the order: no cycle. */
  lemma WaitsAscend(s: State, t: nat)
    requires Shaped(s) && LockInv(s.threads, s.locks)
    requires t < |s.threads| && Blocked(s, t)
    ensures WaitsFor(s, t) < |s.threads| && Ready(s, WaitsFor(s, t))
    ensures Blocked(s, WaitsFor(s, t)) ==>
      WaitLevel(s.threads[WaitsFor(s, t)].pc) > WaitLevel(s.threads[t].pc)
  {
    var i := s.threads[t].choice.slot;
    var u := WaitsFor(s, t);
    assert i == 0 || i == 1;
    assert u < |s.threads| && Ready(s, u);
    assert s.threads[t].pc.WantSlot? ==> Owns(s.threads[u], i);
  }

  /** In every state with an unfinished operation some unfinished operation can make a step. */
  lemma {:induction false} SomeoneCanMove(s: State, t: nat) returns (u: nat)
    requires Shaped(s) && LockInv(s.threads, s.locks)
    requires t < |s.threads| && !s.threads[t].pc.Idle?
    ensures Enabled(s, Advance(u))
    decreases 4 - WaitLevel(s.threads[t].pc)
  {
    assert Ready(s, t);
    if Blocked(s, t) {
      WaitsAscend(s, t);
      u := WaitsFor(s, t);
      if Blocked(s, u) {
        u := SomeoneCanMove(s, u);
      } else {
        OwnersAreBusy(s, t);
      }
    } else {
      u := t;
    }
  }

  lemma OwnersAreBusy(s: State, t: nat)
    requires Shaped(s) && LockInv(s.threads, s.locks)
    requires t < |s.threads| && Blocked(s, t)
    ensures WaitsFor(s, t) < |s.threads| && !s.threads[WaitsFor(s, t)].pc.Idle?
  {
    var i := s.threads[t].choice.slot;
    var u := WaitsFor(s, t);
    assert i == 0 || i == 1;
    assert u < |s.threads|;
    assert s.threads[t].pc.WantSlot? ==> Owns(s.threads[u], i);
  }

  /** An upper bound on the steps an operation has left. */
  function Remaining(pc: Pc): nat {
    match pc
    case Idle => 0
    case WantGlobal => 18
    case Select => 17
    case WantSlot => 16
    case DropGlobal => 15
    case LoadCache => 14
    case CheckSeed => 13
    case InitCache => 12
    case StoreCache => 11
    case StoreHeight => 10
    case StoreHash => 9
    case BindVm => 8
    case WantDataset => 7
    case UseDataset => 6
    case LeaveDataset => 5
    case CreateVm => 4
    case ReleaseSlot => 3
    case HashFree => 2
    case HashLocked => 3
    case ReleaseAlt => 1
    case ReorgWant => 4
    case ReorgFirst => 3
    case ReorgSecond => 2
    case ReorgRelease => 1
    case StopWant => 3
    case StopBody => 2
    case StopRelease => 1
  }

  function TotalRemaining(threads: seq<Thread>): nat {
    if threads == [] then 0
    else TotalRemaining(threads[..|threads| - 1]) + Remaining(threads[|threads| - 1].pc)
  }

  lemma {:induction false} TotalAfterMove(threads: seq<Thread>, threads': seq<Thread>, t: nat)
    requires OthersKept(threads, threads', t)
    ensures TotalRemaining(threads') - TotalRemaining(threads) ==
      Remaining(threads'[t].pc) - Remaining(threads[t].pc)
  {
    var n := |threads| - 1;
    if t < n {
      TotalAfterMove(threads[..n], threads'[..n], t);
    } else {
      assert threads[..n] == threads'[..n];
    }
  }

  lemma SuccessorIsCloser(pc: Pc, alt: bool, next: Pc)
    requires !pc.Idle? && Successor(pc, alt, next)
    ensures Remaining(next) < Remaining(pc)
  {
  }

  /** Every step of an operation uses up some of its bounded remainder. */
  lemma StepsAreBounded(e: Env, s: State, t: nat)
    requires Enabled(s, Advance(t))
    ensures TotalRemaining(Apply(e, s, Advance(t)).threads) < TotalRemaining(s.threads)
  {
    Moves(e, s, Advance(t));
    SuccessorIsCloser(s.threads[t].pc, s.threads[t].choice.alt, Apply(e, s, Advance(t)).threads[t].pc);
    TotalAfterMove(s.threads, Apply(e, s, Advance(t)).threads, t);
  }
}
