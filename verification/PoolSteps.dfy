/** The object pool of src/qrandomx/qrandomxpool.cpp as the atomic steps of any number of clients.

    The bodies of `acquire` and `add` run under the pool mutex and are one step each. Giving an instance
    back takes several steps of its deleter, between which the pool may lose its last other owner. */
module PoolSteps {
  import opened Basics

  /** `owners` counts the clients' shared pointers to the pool and `strong` all strong references.
      An instance given back is `entering` its deleter; then it is `adding` with a locked reference to
      the pool, or `deleting` because the pool is gone. `dropping` counts the deleters that still hold
      their reference after adding. `created`, `deleted` and `peak` are history. */
  datatype State = State(owners: nat, strong: nat, pooled: seq<nat>, held: set<nat>,
                         entering: set<nat>, adding: set<nat>, dropping: nat, deleting: set<nat>,
                         created: nat, deleted: seq<nat>, peak: nat)

  datatype Action =
    | CopyOwner
    | DropOwner
    | Acquire
    | GiveBack(id: nat)
    | LockPool(id: nat)
    | Add(id: nat)
    | DropReference
    | Delete(id: nat)

  function Initial(): State {
    State(1, 1, [], {}, {}, {}, 0, {}, 0, [], 0)
  }

  /** The instances that are out of the pool: with a client or in a deleter. */
  function Out(s: State): nat {
    |s.held| + |s.entering| + |s.adding| + |s.deleting|
  }

  predicate Enabled(s: State, a: Action) {
    match a
    case CopyOwner => s.owners > 0
    case DropOwner => s.owners > 0
    case Acquire => s.owners > 0
    case GiveBack(id) => id in s.held
    case LockPool(id) => id in s.entering
    case Add(id) => id in s.adding
    case DropReference => s.dropping > 0
    case Delete(id) => id in s.deleting
  }

  /** Dropping a strong reference; the last one destroys the pool, which detaches and deletes what it
      holds (lines 57-65). */
  function DropStrong(s: State): State {
    if s.strong > 1 then s.(strong := s.strong - 1)
    else s.(strong := 0, pooled := [], deleted := s.deleted + s.pooled)
  }

  /** Lines 67-83. */
  function Acquired(s: State): State {
    if s.pooled == [] then s.(held := s.held + {s.created}, created := s.created + 1)
    else
      var n := |s.pooled| - 1;
      s.(held := s.held + {s.pooled[n]}, pooled := s.pooled[..n])
  }

  function Apply(s: State, a: Action): State
    requires Enabled(s, a)
  {
    match a
    case CopyOwner => s.(owners := s.owners + 1, strong := s.strong + 1)
    case DropOwner => DropStrong(s.(owners := s.owners - 1))
    case Acquire => Acquired(s).(peak := Max(s.peak, Out(Acquired(s))))
    case GiveBack(id) => s.(held := s.held - {id}, entering := s.entering + {id})
    case LockPool(id) =>
      if s.strong > 0 then s.(entering := s.entering - {id}, adding := s.adding + {id}, strong := s.strong + 1)
      else s.(entering := s.entering - {id}, deleting := s.deleting + {id})
    case Add(id) => s.(adding := s.adding - {id}, dropping := s.dropping + 1, pooled := s.pooled + [id])
    case DropReference => DropStrong(s.(dropping := s.dropping - 1))
    case Delete(id) => s.(deleting := s.deleting - {id}, deleted := s.deleted + [id])
  }

  /** An action that is not enabled when its turn comes does nothing. */
  function Do(s: State, a: Action): State {
    if Enabled(s, a) then Apply(s, a) else s
  }

  /** A schedule is a list of actions. */
  function After(schedule: seq<Action>): State {
    if schedule == [] then Initial() else Do(After(schedule[..|schedule| - 1]), schedule[|schedule| - 1])
  }

  // ---------------------------------------------------------------------------------------------
  // The invariant
  // ---------------------------------------------------------------------------------------------

  function Times(ids: seq<nat>, id: nat): nat {
    multiset(ids)[id]
  }

  /** The number of places an instance is in. */
  function Places(s: State, id: nat): nat {
    Times(s.pooled, id) + One(id in s.held) + One(id in s.entering) + One(id in s.adding)
      + One(id in s.deleting) + Times(s.deleted, id)
  }

  predicate Placed(s: State, id: nat) {
    Places(s, id) == One(id < s.created)
  }

  ghost predicate AllPlaced(s: State) {
    forall id: nat :: Placed(s, id)
  }

  predicate Counted(s: State) {
    && s.created == |s.pooled| + Out(s) + |s.deleted|
    && s.strong == s.owners + |s.adding| + s.dropping
    && (s.strong == 0 ==> s.pooled == [])
    && (s.strong > 0 ==> s.deleted == [] && s.deleting == {} && s.created == s.peak)
    && Out(s) <= s.peak
  }

  ghost predicate Inv(s: State) {
    AllPlaced(s) && Counted(s)
  }

  lemma TimesMore(ids: seq<nat>, x: nat, id: nat)
    ensures Times(ids + [x], id) == Times(ids, id) + One(x == id)
  {
  }

  lemma TimesBoth(a: seq<nat>, b: seq<nat>, id: nat)
    ensures Times(a + b, id) == Times(a, id) + Times(b, id)
  {
  }

  lemma AcquireCounts(s: State)
    requires Inv(s) && s.owners > 0
    ensures Counted(Apply(s, Acquire))
  {
    if s.pooled == [] {
      assert Placed(s, s.created);
    } else {
      var n := |s.pooled| - 1;
      assert s.pooled == s.pooled[..n] + [s.pooled[n]];
      TimesMore(s.pooled[..n], s.pooled[n], s.pooled[n]);
      assert Placed(s, s.pooled[n]);
    }
  }

  lemma AcquirePlaces(s: State, id: nat)
    requires AllPlaced(s) && s.owners > 0
    ensures Placed(Apply(s, Acquire), id)
  {
    assert Placed(s, id);
    if s.pooled != [] {
      var n := |s.pooled| - 1;
      assert s.pooled == s.pooled[..n] + [s.pooled[n]];
      TimesMore(s.pooled[..n], s.pooled[n], id);
    }
  }

  lemma DropKeepsInv(s: State)
    requires AllPlaced(s) && s.strong == s.owners + |s.adding| + s.dropping + 1
    requires s.created == |s.pooled| + Out(s) && s.deleted == [] && s.deleting == {}
    requires s.created == s.peak && Out(s) <= s.peak
    ensures Inv(DropStrong(s))
  {
    forall id: nat ensures Placed(DropStrong(s), id) {
      assert Placed(s, id);
      TimesBoth(s.deleted, s.pooled, id);
    }
  }

  lemma MoveCounts(s: State, a: Action)
    requires Inv(s) && Enabled(s, a)
    requires a.GiveBack? || a.LockPool? || a.Add? || a.Delete?
    ensures Counted(Apply(s, a))
  {
    assert Placed(s, a.id);
  }

  lemma MovePlaces(s: State, a: Action, id: nat)
    requires AllPlaced(s) && Enabled(s, a)
    requires a.GiveBack? || a.LockPool? || a.Add? || a.Delete?
    ensures Placed(Apply(s, a), id)
  {
    assert Placed(s, id);
    assert Placed(s, a.id);
    TimesMore(s.pooled, a.id, id);
    TimesMore(s.deleted, a.id, id);
  }

  lemma StepKeepsInv(s: State, a: Action)
    requires Inv(s) && Enabled(s, a)
    ensures Inv(Apply(s, a))
  {
    match a {
      case CopyOwner =>
        forall id: nat ensures Placed(Apply(s, a), id) {
          assert Placed(s, id);
        }
      case DropOwner => DropReferenceKeepsInv(s, s.(owners := s.owners - 1));
      case DropReference => DropReferenceKeepsInv(s, s.(dropping := s.dropping - 1));
      case Acquire =>
        AcquireCounts(s);
        forall id: nat ensures Placed(Apply(s, a), id) {
          AcquirePlaces(s, id);
        }
      case _ =>
        MoveCounts(s, a);
        forall id: nat ensures Placed(Apply(s, a), id) {
          MovePlaces(s, a, id);
        }
    }
  }

  lemma DropReferenceKeepsInv(s: State, dropped: State)
    requires Inv(s)
    requires dropped == s.(owners := dropped.owners, dropping := dropped.dropping)
    requires dropped.owners + dropped.dropping + 1 == s.owners + s.dropping
    ensures Inv(DropStrong(dropped))
  {
    forall id: nat ensures Placed(dropped, id) {
      assert Placed(s, id);
    }
    DropKeepsInv(dropped);
  }

  lemma {:induction false} AlwaysOk(schedule: seq<Action>)
    ensures Inv(After(schedule))
  {
    if schedule == [] {
      forall id: nat ensures Placed(Initial(), id) {
      }
    } else {
      var k := |schedule| - 1;
      AlwaysOk(schedule[..k]);
      var before := After(schedule[..k]);
      if Enabled(before, schedule[k]) {
        StepKeepsInv(before, schedule[k]);
      }
    }
  }

  // ---------------------------------------------------------------------------------------------
  // Reuse
  // ---------------------------------------------------------------------------------------------

  /** The way of an instance back into the pool. */
  function GoBack(s: State, id: nat): State {
    Do(Do(Do(s, GiveBack(id)), LockPool(id)), Add(id))
  }

  lemma GoesBack(s: State, id: nat)
    requires Inv(s) && s.owners > 0 && id in s.held
    ensures var back := GoBack(s, id);
            && back.pooled == s.pooled + [id] && back.held == s.held - {id}
            && back.owners == s.owners && back.created == s.created
  {
    assert Placed(s, id);
  }

  lemma ComesOut(s: State, id: nat, before: seq<nat>)
    requires s.owners > 0 && s.pooled == before + [id]
    ensures var again := Do(s, Acquire);
            again.held == s.held + {id} && again.pooled == before && again.created == s.created
  {
  }

  /** The stack: an instance given back while the pool lives is the next one handed out, from the same stack. */
  lemma GivenBackComesOutNext(schedule: seq<Action>, id: nat)
    requires After(schedule).owners > 0 && id in After(schedule).held
    ensures var s := After(schedule);
            var back := GoBack(s, id);
            var again := Do(back, Acquire);
            && back.pooled == s.pooled + [id] && id !in back.held
            && again.held == s.held && again.pooled == s.pooled && again.created == s.created
  {
    AlwaysOk(schedule);
    var s := After(schedule);
    GoesBack(s, id);
    ComesOut(GoBack(s, id), id, s.pooled);
    assert s.held - {id} + {id} == s.held;
  }

  // ---------------------------------------------------------------------------------------------
  // Accounting
  // ---------------------------------------------------------------------------------------------

  /** Every instance ever created is in exactly one place, and no other instance is anywhere. */
  lemma OnePlaceEach(schedule: seq<Action>, id: nat)
    ensures Places(After(schedule), id) == if id < After(schedule).created then 1 else 0
  {
    AlwaysOk(schedule);
    assert Placed(After(schedule), id);
  }

  /** The largest number of instances that were out of the pool at one moment of a run. */
  function Peak(schedule: seq<Action>): nat {
    var now := Out(After(schedule));
    if schedule == [] then now else Max(now, Peak(schedule[..|schedule| - 1]))
  }

  lemma PeakStep(s: State, a: Action)
    requires Inv(s) && Enabled(s, a)
    ensures Apply(s, a).peak == Max(s.peak, Out(Apply(s, a)))
  {
    StepKeepsInv(s, a);
  }

  lemma {:induction false} PeakIsRecorded(schedule: seq<Action>)
    ensures After(schedule).peak == Peak(schedule)
  {
    AlwaysOk(schedule);
    if schedule != [] {
      var k := |schedule| - 1;
      AlwaysOk(schedule[..k]);
      PeakIsRecorded(schedule[..k]);
      var before := After(schedule[..k]);
      if Enabled(before, schedule[k]) {
        PeakStep(before, schedule[k]);
      }
    }
  }

  /** While anything keeps the pool alive nothing is deleted, every instance is in the pool or out of it,
      and exactly as many instances exist as were ever out at one moment. */
  lemma CreatedIsPeak(schedule: seq<Action>)
    requires After(schedule).strong > 0
    ensures var s := After(schedule);
            && s.deleted == []
            && s.created == |s.pooled| + Out(s)
            && s.created == Peak(schedule)
  {
    AlwaysOk(schedule);
    PeakIsRecorded(schedule);
  }

  /** Once all owners are gone and everything held was given back, every instance has been deleted
      exactly once, whichever of the two happened first; before that, nothing is deleted twice. */
  lemma EverythingIsDeletedOnce(schedule: seq<Action>, id: nat)
    ensures var s := After(schedule);
            && Times(s.deleted, id) <= 1
            && (s.owners == 0 && Out(s) == 0 && s.dropping == 0 ==>
                  Times(s.deleted, id) == if id < s.created then 1 else 0)
  {
    AlwaysOk(schedule);
    assert Placed(After(schedule), id);
  }

  /** The steps that deleters under way have left, at most. */
  function Unfinished(s: State): nat {
    4 * |s.entering| + 3 * |s.adding| + s.dropping + |s.deleting|
  }

  /** Each step of a deleter brings the pool closer to rest. */
  lemma DeletersFinish(s: State, a: Action)
    requires Enabled(s, a) && (a.LockPool? || a.Add? || a.DropReference? || a.Delete?)
    ensures Unfinished(Apply(s, a)) < Unfinished(s)
  {
  }
}
