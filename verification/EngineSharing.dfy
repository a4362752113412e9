/** When a caller may drop the slot lock before hashing: as long as nobody in flight wants another seed in
    its slot. Adjacent epochs of the main chain are one case of this. */
module EngineSharing {
  import opened Basics
  import opened SeedEpochs
  import opened EngineSteps
  import opened EngineLocks
  import opened EngineSafety
  import opened EngineTheorems

  /** The slot has been chosen. */
  predicate Chosen(pc: Pc) {
    InCall(pc) && !pc.WantGlobal? && !pc.Select?
  }

  /** A caller that hashes without its slot lock, and another that wants a different seed there. */
  predicate Clash(th: Thread, other: Thread) {
    && Chosen(th.pc) && Chosen(other.pc)
    && !th.choice.alt && th.choice.slot == other.choice.slot
    && th.call.seedHash != other.call.seedHash
  }

  ghost predicate Unclashed(s: State, t: nat) {
    t < |s.threads| && forall u :: 0 <= u < |s.threads| && u != t ==> !Clash(s.threads[t], s.threads[u])
  }

  // ---------------------------------------------------------------------------------------------
  // One caller
  // ---------------------------------------------------------------------------------------------

  /** Between unlock and hash the slot still has the caller's seed. */
  predicate Undisturbed(s: State, t: nat) {
    && t < |s.threads|
    && var th := s.threads[t];
    th.pc.HashFree? ==>
      th.mark <= |s.log|
      && KeyAfter(s.log, th.mark, |s.log|, th.choice.slot, th.call.seedHash) == th.call.seedHash
  }

  ghost predicate AllRight(log: seq<Event>, t: nat) {
    forall j :: 0 <= j < |log| && log[j].Hashed? && log[j].thread == t && !log[j].mined ==>
      log[j].source == Key(log[j].call.seedHash)
  }

  lemma OwnStepUndisturbed(e: Env, s: State, t: nat)
    requires Enabled(s, Advance(t))
    ensures Undisturbed(DataStep(e, s, t), t)
  {
    DataMoves(e, s, t);
    var s' := DataStep(e, s, t);
    if s'.threads[t].pc.HashFree? {
      assert s.threads[t].pc.ReleaseSlot?;
    }
  }

  lemma OtherStepUndisturbed(s: State, s': State, t: nat, u: nat)
    requires Ready(s, u) && DataChange(s, s', u) && t != u && SameThread(s, s', t)
    requires Kept(s, t) && Undisturbed(s, t) && !Clash(s.threads[t], s.threads[u])
    ensures Undisturbed(s', t)
  {
    var th := s.threads[t];
    if th.pc.HashFree? && s'.log != s.log {
      LogGrows(s.log, s'.log[|s.log|], th.mark, th.choice.slot, t, th.call.seedHash);
    }
  }

  lemma NewHashIsRight(s: State, s': State, t: nat, u: nat)
    requires Kept(s, u) && DataChange(s, s', u) && LogOk(s'.log)
    requires Undisturbed(s, t) && AllRight(s.log, t)
    ensures AllRight(s'.log, t)
  {
    if s'.log != s.log {
      var n := |s.log|;
      var ev := s'.log[n];
      if ev.Hashed? && ev.thread == t && !ev.mined {
        assert EventOk(s'.log, n);
        if !ev.alt {
          KeyOfPrefix(s.log, ev, ev.mark, n, ev.slot, ev.call.seedHash);
        }
      }
    }
  }

  lemma AdvanceStaysRight(e: Env, s: State, t: nat, u: nat)
    requires Inv(s) && Unclashed(s, t) && Undisturbed(s, t) && AllRight(s.log, t)
    requires Enabled(s, Advance(u))
    ensures Undisturbed(Apply(e, s, Advance(u)), t) && AllRight(Apply(e, s, Advance(u)).log, t)
  {
    var data := DataStep(e, s, u);
    AdvanceOk(e, s, u);
    DataMoves(e, s, u);
    DataChanges(e, s, u);
    assert Kept(s, t) && Kept(s, u);
    NewHashIsRight(s, data, t, u);
    if t == u {
      OwnStepUndisturbed(e, s, t);
    } else {
      OtherStepUndisturbed(s, data, t, u);
    }
  }

  lemma BeginStaysRight(s: State, t: nat, u: nat, op: Operation)
    requires Enabled(s, Begin(u, op)) && Undisturbed(s, t)
    ensures Undisturbed(BeginOperation(s, u, op), t) && BeginOperation(s, u, op).log == s.log
  {
  }

  lemma StepStaysRight(e: Env, s: State, t: nat, a: Action)
    requires Inv(s) && Unclashed(s, t) && Undisturbed(s, t) && AllRight(s.log, t) && Enabled(s, a)
    ensures Undisturbed(Apply(e, s, a), t) && AllRight(Apply(e, s, a).log, t)
  {
    match a {
      case Advance(u) => AdvanceStaysRight(e, s, t, u);
      case Begin(u, op) => BeginStaysRight(s, t, u, op);
    }
  }

  lemma {:induction false} RunsStayRight(e: Env, n: nat, schedule: seq<Action>, t: nat)
    requires t < n
    requires forall k :: 0 <= k <= |schedule| ==> Unclashed(After(e, Initial(n), schedule[..k]), t)
    ensures var s := After(e, Initial(n), schedule);
            Undisturbed(s, t) && AllRight(s.log, t)
  {
    if schedule != [] {
      var k := |schedule| - 1;
      forall i | 0 <= i <= k ensures schedule[..k][..i] == schedule[..i] {
      }
      RunsStayRight(e, n, schedule[..k], t);
      AlwaysOk(e, n, schedule[..k]);
      var before := After(e, Initial(n), schedule[..k]);
      assert Unclashed(before, t);
      if Enabled(before, schedule[k]) {
        StepStaysRight(e, before, t, schedule[k]);
      }
    }
  }

  /** Whatever else runs, reorganisations and alt calls included: if at no moment another call in flight
      wants a different seed in the slot of a caller that hashes without its lock, all light hashes of
      that caller use the seed it asked for. */
  lemma SharedSlotsAreSafe(e: Env, n: nat, schedule: seq<Action>, t: nat, j: nat)
    requires t < n
    requires forall k :: 0 <= k <= |schedule| ==> Unclashed(After(e, Initial(n), schedule[..k]), t)
    requires j < |After(e, Initial(n), schedule).log|
    ensures var ev := After(e, Initial(n), schedule).log[j];
            ev.Hashed? && ev.thread == t && !ev.mined ==> ev.source == Key(ev.call.seedHash)
  {
    RunsStayRight(e, n, schedule, t);
  }

  // ---------------------------------------------------------------------------------------------
  // Calls with a fixed choice
  // ---------------------------------------------------------------------------------------------

  /** The choice depends on the call alone: a main-chain call, or an alt call for another seed height than
      that of its main height. */
  predicate Fixed(call: Call) {
    !call.isAlt || SeedHeight(call.mainHeight) != call.seedHeight
  }

  /** The choice of such a call; the recorded seed hash it is given makes no difference. */
  function ChoiceOf(call: Call): Choice {
    ChooseSlot(call.mainHeight, call.seedHeight, call.seedHash, call.isAlt, call.seedHash)
  }

  lemma ChoiceIsFixed(call: Call, seen: Bytes)
    requires Fixed(call)
    ensures ChooseSlot(call.mainHeight, call.seedHeight, call.seedHash, call.isAlt, seen) == ChoiceOf(call)
  {
  }

  predicate ChoiceOk(th: Thread) {
    Chosen(th.pc) && Fixed(th.call) ==> th.choice == ChoiceOf(th.call)
  }

  ghost predicate ChoicesOk(s: State) {
    forall t :: 0 <= t < |s.threads| ==> ChoiceOk(s.threads[t])
  }

  lemma SelectChooses(e: Env, s: State, t: nat)
    requires Enabled(s, Advance(t)) && s.threads[t].pc.Select?
    ensures |DataStep(e, s, t).threads| == |s.threads| && ChoiceOk(DataStep(e, s, t).threads[t])
  {
    if Fixed(s.threads[t].call) {
      ChoiceIsFixed(s.threads[t].call, s.slots[Toggle(s.threads[t].call.mainHeight)].hash);
    }
  }

  lemma ChoiceStep(e: Env, s: State, a: Action)
    requires ChoicesOk(s) && Enabled(s, a)
    ensures ChoicesOk(Apply(e, s, a))
  {
    Moves(e, s, a);
    var t, s' := a.thread, Apply(e, s, a);
    assert ChoiceOk(s.threads[t]);
    if a.Advance? && s.threads[t].pc.Select? {
      SelectChooses(e, s, t);
    }
    assert ChoiceOk(s'.threads[t]);
  }

  lemma {:induction false} ChoicesRun(e: Env, n: nat, schedule: seq<Action>)
    ensures ChoicesOk(After(e, Initial(n), schedule))
  {
    if schedule != [] {
      var k := |schedule| - 1;
      ChoicesRun(e, n, schedule[..k]);
      var before := After(e, Initial(n), schedule[..k]);
      if Enabled(before, schedule[k]) {
        ChoiceStep(e, before, schedule[k]);
      }
    }
  }

  type SeedTable = Uint64 -> Seed

  /** A light main-chain call for the seed of an epoch at most one away from the current one. */
  predicate MainCall(call: Call, seeds: SeedTable) {
    && !call.isAlt && call.miners == 0
    && call.seedHeight % EPOCH_BLOCKS == 0
    && Abs(SeedHeight(call.mainHeight) - call.seedHeight) <= EPOCH_BLOCKS
    && call.seedHash == seeds(call.seedHeight)
  }

  /** At this moment all calls in flight are main-chain calls for the seeds of two adjacent epochs. */
  ghost predicate Window(s: State, seeds: SeedTable) {
    && (forall t :: 0 <= t < |s.threads| && InCall(s.threads[t].pc) ==> MainCall(s.threads[t].call, seeds))
    && (forall t, u :: 0 <= t < |s.threads| && 0 <= u < |s.threads| ==> Adjacent(s.threads[t], s.threads[u]))
  }

  predicate Adjacent(a: Thread, b: Thread) {
    InCall(a.pc) && InCall(b.pc) ==> Abs(a.call.seedHeight - b.call.seedHeight) <= EPOCH_BLOCKS
  }

  lemma SameSlotSameSeed(a: Call, b: Call, seeds: SeedTable)
    requires MainCall(a, seeds) && MainCall(b, seeds) && Abs(a.seedHeight - b.seedHeight) <= EPOCH_BLOCKS
    requires ChoiceOf(a).slot == ChoiceOf(b).slot
    ensures a.seedHash == b.seedHash
  {
    NeighbouringEpochSlot(a.mainHeight, a.seedHeight, a.seedHash, a.seedHash);
    NeighbouringEpochSlot(b.mainHeight, b.seedHeight, b.seedHash, b.seedHash);
    AdjacentEpochsUseDifferentSlots(a.seedHeight, b.seedHeight);
  }

  lemma WindowIsUnclashed(s: State, seeds: SeedTable, t: nat)
    requires Window(s, seeds) && ChoicesOk(s) && t < |s.threads|
    ensures Unclashed(s, t)
  {
    forall u | 0 <= u < |s.threads| && u != t ensures !Clash(s.threads[t], s.threads[u]) {
      if Clash(s.threads[t], s.threads[u]) {
        assert ChoiceOk(s.threads[t]) && ChoiceOk(s.threads[u]) && Adjacent(s.threads[t], s.threads[u]);
        SameSlotSameSeed(s.threads[t].call, s.threads[u].call, seeds);
      }
    }
  }

  lemma {:induction false} ThreadsStay(e: Env, s: State, schedule: seq<Action>)
    ensures |After(e, s, schedule).threads| == |s.threads|
  {
    if schedule != [] {
      var k := |schedule| - 1;
      ThreadsStay(e, s, schedule[..k]);
      var before := After(e, s, schedule[..k]);
      if Enabled(before, schedule[k]) {
        Moves(e, before, schedule[k]);
      }
    }
  }

  ghost predicate LogThreads(log: seq<Event>, n: nat) {
    forall j :: 0 <= j < |log| ==> log[j].thread < n
  }

  lemma LogThreadsStep(e: Env, s: State, a: Action)
    requires LogThreads(s.log, |s.threads|) && Enabled(s, a)
    ensures LogThreads(Apply(e, s, a).log, |s.threads|)
  {
    match a {
      case Advance(t) => DataChanges(e, s, t);
      case Begin(t, op) =>
    }
  }

  lemma WindowKeepsLight(e: Env, s: State, a: Action, seeds: SeedTable)
    requires Light(s) && Enabled(s, a) && Window(Apply(e, s, a), seeds)
    ensures Light(Apply(e, s, a))
  {
    if a.Begin? && a.op.SlowHash? {
      assert MainCall(Apply(e, s, a).threads[a.thread].call, seeds);
    }
    LightStep(e, s, a);
  }

  lemma {:induction false} WindowRunsAreLight(e: Env, n: nat, seeds: SeedTable, schedule: seq<Action>)
    requires forall k :: 0 <= k <= |schedule| ==> Window(After(e, Initial(n), schedule[..k]), seeds)
    ensures Light(After(e, Initial(n), schedule)) && LogThreads(After(e, Initial(n), schedule).log, n)
  {
    if schedule != [] {
      var k := |schedule| - 1;
      forall i | 0 <= i <= k ensures schedule[..k][..i] == schedule[..i] {
      }
      WindowRunsAreLight(e, n, seeds, schedule[..k]);
      ThreadsStay(e, Initial(n), schedule[..k]);
      assert schedule[..k + 1] == schedule;
      var before := After(e, Initial(n), schedule[..k]);
      if Enabled(before, schedule[k]) {
        WindowKeepsLight(e, before, schedule[k], seeds);
        LogThreadsStep(e, before, schedule[k]);
      }
    }
  }

  /** As long as at any moment the calls in flight are light main-chain calls, each within one epoch of its
      own main height, for the seeds of two adjacent epochs, and each epoch has one seed, every hash uses
      the requested seed; the window may move over the run, and reorganisations may happen. */
  lemma AdjacentEpochsNeverClash(e: Env, n: nat, seeds: SeedTable, schedule: seq<Action>, j: nat)
    requires forall k :: 0 <= k <= |schedule| ==> Window(After(e, Initial(n), schedule[..k]), seeds)
    requires j < |After(e, Initial(n), schedule).log| && After(e, Initial(n), schedule).log[j].Hashed?
    ensures var ev := After(e, Initial(n), schedule).log[j];
            ev.source == Key(ev.call.seedHash)
  {
    WindowRunsAreLight(e, n, seeds, schedule);
    var t := After(e, Initial(n), schedule).log[j].thread;
    forall k | 0 <= k <= |schedule| ensures Unclashed(After(e, Initial(n), schedule[..k]), t) {
      ChoicesRun(e, n, schedule[..k]);
      ThreadsStay(e, Initial(n), schedule[..k]);
      WindowIsUnclashed(After(e, Initial(n), schedule[..k]), seeds, t);
    }
    SharedSlotsAreSafe(e, n, schedule, t, j);
  }
}
