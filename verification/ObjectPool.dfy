/** The pool's own code run by one thread: its stack of idle instances, the deleter that a client's
    pointer carries, and the destructor (src/qrandomx/qrandomxpool.cpp:29-89). */
module ObjectPool {

  class Instance {
    var deletions: nat

    constructor ()
      ensures deletions == 0
    {
      deletions := 0;
    }
  }

  /** A client's owning pointer: the instance and the deleter's weak reference to the pool. */
  class Handle {
    const instance: Instance
    var owner: QRandomXPool?

    constructor (instance: Instance, owner: QRandomXPool?)
      ensures this.instance == instance && this.owner == owner
    {
      this.instance := instance;
      this.owner := owner;
    }
  }

  ghost predicate Distinct(handles: seq<Handle>) {
    forall i, j :: 0 <= i < j < |handles| ==>
      handles[i] != handles[j] && handles[i].instance != handles[j].instance
  }

  ghost function Instances(handles: seq<Handle>): (r: set<Instance>)
    ensures forall i :: 0 <= i < |handles| ==> handles[i].instance in r
  {
    set i | 0 <= i < |handles| :: handles[i].instance
  }

  class QRandomXPool {
    var poolContainer: seq<Handle>
    var alive: bool

    ghost predicate Valid()
      reads this, poolContainer
    {
      && Distinct(poolContainer)
      && (forall h :: h in poolContainer ==> h.owner == this)
      && (!alive ==> poolContainer == [])
    }

    constructor ()
      ensures Valid() && alive && poolContainer == []
    {
      poolContainer := [];
      alive := true;
    }

    /** The instance given back last comes out first; a new one is made only when none is idle. */
    method Acquire() returns (ptr: Handle)
      requires Valid() && alive
      modifies this`poolContainer
      ensures Valid() && ptr.owner == this
      ensures ptr !in poolContainer && ptr.instance !in Instances(poolContainer)
      ensures old(poolContainer) == [] ==>
        poolContainer == [] && fresh(ptr) && fresh(ptr.instance) && ptr.instance.deletions == 0
      ensures old(poolContainer) != [] ==> old(poolContainer) == poolContainer + [ptr]
    {
      if poolContainer == [] {
        var instance := new Instance();
        ptr := new Handle(instance, this);
      } else {
        ptr := poolContainer[|poolContainer| - 1];
        poolContainer := poolContainer[..|poolContainer| - 1];
      }
    }

    method Add(ptr: Handle)
      requires Valid() && alive && ptr.owner == this
      requires ptr !in poolContainer && ptr.instance !in Instances(poolContainer)
      modifies this`poolContainer
      ensures Valid() && poolContainer == old(poolContainer) + [ptr]
    {
      poolContainer := poolContainer + [ptr];
    }

    /** Every idle instance is detached from the pool and deleted exactly once. */
    method Destroy()
      requires Valid() && alive
      modifies this, poolContainer, Instances(poolContainer)
      ensures Valid() && !alive && poolContainer == []
      ensures forall h :: h in old(poolContainer) ==> h.owner == null
      ensures forall h :: h in old(poolContainer) ==> h.instance.deletions == old(h.instance.deletions) + 1
    {
      ghost var idle := poolContainer;
      alive := false;
      while poolContainer != []
        invariant poolContainer == idle[..|poolContainer|] && |poolContainer| <= |idle| && !alive
        invariant forall i :: |poolContainer| <= i < |idle| ==>
          idle[i].owner == null && idle[i].instance.deletions == old(idle[i].instance.deletions) + 1
        invariant forall i :: 0 <= i < |poolContainer| ==>
          idle[i].owner == this && idle[i].instance.deletions == old(idle[i].instance.deletions)
        decreases |poolContainer|
      {
        var n := |poolContainer| - 1;
        var top := poolContainer[n];
        assert top == idle[n];
        poolContainer := poolContainer[..n];
        top.owner := null;
        Release(top);
      }
    }
  }

  /** The deleter: back into the pool if it still exists, otherwise deleted. */
  method Release(ptr: Handle)
    requires ptr.owner != null && ptr.owner.alive ==>
      ptr.owner.Valid() && ptr !in ptr.owner.poolContainer && ptr.instance !in Instances(ptr.owner.poolContainer)
    modifies ptr.instance, if ptr.owner == null then {} else {ptr.owner}
    ensures ptr.owner == old(ptr.owner)
    ensures ptr.owner != null && ptr.owner.alive ==>
      && old(ptr.owner.alive) && ptr.owner.Valid()
      && ptr.instance.deletions == old(ptr.instance.deletions)
      && exists back: Handle :: fresh(back) && back.instance == ptr.instance
           && ptr.owner.poolContainer == old(ptr.owner.poolContainer) + [back]
    ensures ptr.owner == null || !ptr.owner.alive ==>
      && (ptr.owner == null || !old(ptr.owner.alive))
      && ptr.instance.deletions == old(ptr.instance.deletions) + 1
  {
    if ptr.owner != null && ptr.owner.alive {
      var pool := ptr.owner;
      var back := new Handle(ptr.instance, pool);
      pool.Add(back);
    } else {
      ptr.instance.deletions := ptr.instance.deletions + 1;
    }
  }
}
