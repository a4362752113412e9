/** Which slot a call uses, and whether it keeps the slot lock while hashing, by the fields of the call
    (src/qrandomx/rx-slow-hash.c:197-214 and 278-285), over all runs. */
module EngineChoice {
  import opened Basics
  import opened SeedEpochs
  import opened EngineSteps
  import opened EngineLocks
  import opened EngineSafety
  import opened EngineSharing

  /** The slot of the epoch that is current for the call. */
  function HomeSlot(call: Call): nat {
    SeedHeight(call.mainHeight) / EPOCH_BLOCKS % 2
  }

  /** What a call can have chosen. */
  predicate MayChoose(call: Call, choice: Choice) {
    var home := HomeSlot(call);
    if call.seedHeight == SeedHeight(call.mainHeight) then
      choice == Choice(home, false) || (call.isAlt && choice == Choice(1 - home, true))
    else
      choice == Choice(1 - home, call.isAlt || call.seedHeight < SeedHeight(call.mainHeight))
  }

  /** The choice of a call by its fields. */
  function Chooses(s: State, call: Call): Choice
    requires |s.slots| == 2
  {
    var home := HomeSlot(call);
    if call.seedHeight == SeedHeight(call.mainHeight) then
      (if call.isAlt && s.slots[home].hash != call.seedHash then Choice(1 - home, true) else Choice(home, false))
    else
      Choice(1 - home, call.isAlt || call.seedHeight < SeedHeight(call.mainHeight))
  }

  /** The choice under the global mutex: an alt call for the current epoch goes to its slot, and stops being an
      alt call, exactly when the seed hash recorded there is its own. */
  lemma SelectByFields(e: Env, s: State, t: nat)
    requires Enabled(s, Advance(t)) && s.threads[t].pc.Select?
    ensures var call, s' := s.threads[t].call, Apply(e, s, Advance(t));
            && |s'.threads| == |s.threads|
            && s'.threads[t].pc == WantSlot && s'.threads[t].call == call
            && s'.threads[t].choice == Chooses(s, call)
  {
    var call := s.threads[t].call;
    ToggleBitIsParity(SeedHeight(call.mainHeight));
    var seen := s.slots[Toggle(call.mainHeight)].hash;
    ChoiceByFields(call.mainHeight, call.seedHeight, call.seedHash, call.isAlt, seen);
  }

  predicate KeepsChoice(th: Thread) {
    Chosen(th.pc) ==> MayChoose(th.call, th.choice)
  }

  predicate RecordsChoice(ev: Event) {
    ev.Hashed? ==> MayChoose(ev.call, Choice(ev.slot, ev.alt))
  }

  ghost predicate ChoicesKept(s: State) {
    && (forall t :: 0 <= t < |s.threads| ==> KeepsChoice(s.threads[t]))
    && (forall j :: 0 <= j < |s.log| ==> RecordsChoice(s.log[j]))
  }

  lemma AdvanceKeepsChoices(e: Env, s: State, t: nat)
    requires ChoicesKept(s) && Enabled(s, Advance(t))
    ensures ChoicesKept(Apply(e, s, Advance(t)))
  {
    Moves(e, s, Advance(t));
    DataChanges(e, s, t);
    assert KeepsChoice(s.threads[t]);
    if s.threads[t].pc.Select? {
      SelectByFields(e, s, t);
    }
    var s' := Apply(e, s, Advance(t));
    assert KeepsChoice(s'.threads[t]);
  }

  lemma BeginKeepsChoices(s: State, t: nat, op: Operation)
    requires ChoicesKept(s) && t < |s.threads| && s.threads[t].pc.Idle?
    ensures ChoicesKept(BeginOperation(s, t, op))
  {
    assert !Chosen(BeginOperation(s, t, op).threads[t].pc);
  }

  lemma StepKeepsChoices(e: Env, s: State, a: Action)
    requires ChoicesKept(s) && Enabled(s, a)
    ensures ChoicesKept(Apply(e, s, a))
  {
    match a {
      case Advance(t) => AdvanceKeepsChoices(e, s, t);
      case Begin(t, op) => BeginKeepsChoices(s, t, op);
    }
  }

  lemma {:induction false} ChoicesAreKept(e: Env, n: nat, schedule: seq<Action>)
    ensures ChoicesKept(After(e, Initial(n), schedule))
  {
    if schedule != [] {
      var k := |schedule| - 1;
      ChoicesAreKept(e, n, schedule[..k]);
      var before := After(e, Initial(n), schedule[..k]);
      if Enabled(before, schedule[k]) {
        StepKeepsChoices(e, before, schedule[k]);
      }
    }
  }

  /** In every run each hash is computed over a slot its call may have chosen, and so: a call for a past epoch,
      and an alt call for any other epoch than the current one, keeps out of the current epoch's slot, keeps its
      slot lock, and hashes with its own seed whatever else runs. */
  lemma OtherEpochsKeepTheLock(e: Env, n: nat, schedule: seq<Action>, j: nat)
    requires j < |After(e, Initial(n), schedule).log| && After(e, Initial(n), schedule).log[j].Hashed?
    ensures var ev := After(e, Initial(n), schedule).log[j];
            var current := SeedHeight(ev.call.mainHeight);
            && MayChoose(ev.call, Choice(ev.slot, ev.alt))
            && (ev.call.seedHeight < current || (ev.call.isAlt && ev.call.seedHeight != current) ==>
                  && ev.slot == 1 - current / EPOCH_BLOCKS % 2 && ev.alt
                  && (!ev.mined ==> ev.source == Key(ev.call.seedHash)))
  {
    ChoicesAreKept(e, n, schedule);
    AlwaysOk(e, n, schedule);
    var log := After(e, Initial(n), schedule).log;
    assert RecordsChoice(log[j]) && EventOk(log, j);
  }

  /** In every reachable state a thread that is about to hash holds the lock of its slot exactly when it is an
      alt caller after the choice. */
  lemma WhoHashesUnderTheLock(e: Env, n: nat, schedule: seq<Action>, t: nat)
    requires t < n
    ensures var s := After(e, Initial(n), schedule);
            && t < |s.threads| && |s.locks.slots| == 2
            && var th := s.threads[t];
            && th.choice.slot < 2
            && (th.pc.HashLocked? ==> th.choice.alt && s.locks.slots[th.choice.slot] == Some(t))
            && (th.pc.HashFree? ==>
                  !th.choice.alt && s.locks.slots[0] != Some(t) && s.locks.slots[1] != Some(t))
  {
    AlwaysOk(e, n, schedule);
    ThreadsStay(e, Initial(n), schedule);
    OwnFactsHold(After(e, Initial(n), schedule), t);
  }
}
