/** The hash engine as one thread sees it: two slots and a machine updated in place
    (src/qrandomx/rx-slow-hash.c:114-125 and 189-295, without full-memory mode). */
module HashEngine {
  import opened Basics
  import opened SeedEpochs
  import opened EngineSteps

  /** A cache: its memory is a function of the key it was last initialised with. */
  class RandomxCache {
    var key: Option<EngineSteps.Seed>

    constructor ()
      ensures key == None
    {
      key := None;
    }

    method Init(seed: EngineSteps.Seed)
      modifies this
      ensures key == Some(seed)
    {
      key := Some(seed);
    }
  }

  /** A light machine: it reads the cache it is bound to, prepared for the key seen when binding. */
  class RandomxVm {
    var cache: RandomxCache
    var boundKey: Option<EngineSteps.Seed>

    constructor (cache: RandomxCache)
      ensures this.cache == cache && boundKey == cache.key
    {
      this.cache := cache;
      boundKey := cache.key;
    }

    method SetCache(cache: RandomxCache)
      modifies this
      ensures this.cache == cache && boundKey == cache.key
    {
      this.cache := cache;
      boundKey := cache.key;
    }

    method CalculateHash(h: HashFn, data: Bytes) returns (hash: Bytes)
      requires cache.key.Some? && boundKey == cache.key
      ensures hash == h(cache.key.value, data)
    {
      hash := h(boundKey.value, data);
    }
  }

  datatype RxState = RxState(hash: EngineSteps.Seed, height: Uint64, cache: RandomxCache?)

  class Engine {
    const hashFn: HashFn
    const slots: array<RxState>
    var datasetHeight: Uint64
    var vm: RandomxVm?
    /** Every cache ever allocated. */
    ghost var caches: set<RandomxCache>
    /** How often a cache was initialised. */
    ghost var refills: nat

    ghost predicate Valid()
      reads this, slots, caches, vm
    {
      && slots.Length == 2
      && (forall i :: 0 <= i < 2 && slots[i].cache != null ==>
            slots[i].cache in caches && slots[i].cache.key == Some(slots[i].hash))
      && (slots[0].cache != null ==> slots[0].cache != slots[1].cache)
      && (forall c :: c in caches ==> c == slots[0].cache || c == slots[1].cache)
      && (vm != null ==> vm.cache in caches)
    }

    /** At most one cache is ever allocated per slot. */
    lemma AtMostTwoCaches()
      requires Valid()
      ensures |caches| <= 2
    {
      if caches != {} {
        var c :| c in caches;
        var rest := caches - {c};
        if rest != {} {
          var d :| d in rest;
          assert rest - {d} == {};
          assert |rest| == 1;
        }
        assert |caches| == |rest| + 1;
      }
    }

    constructor (hashFn: HashFn)
      ensures Valid() && fresh(slots) && caches == {} && vm == null && refills == 0
      ensures this.hashFn == hashFn
      ensures forall i :: 0 <= i < 2 ==> slots[i] == RxState(ZERO_SEED, 0, null)
    {
      this.hashFn := hashFn;
      slots := new RxState[2](_ => RxState(ZERO_SEED, 0, null));
      datasetHeight := 0;
      vm := null;
      caches := {};
      refills := 0;
    }

    /** Line 229: the slot needs no refill. */
    predicate UpToDate(i: nat, seedHeight: Uint64, seedHash: EngineSteps.Seed)
      requires i < slots.Length
      reads slots
    {
      slots[i].height == seedHeight && slots[i].cache != null && slots[i].hash == seedHash
    }

    /** Lines 218-234: the slot gets a cache if it has none, and the requested seed if it differs. */
    method PrepareSlot(i: nat, seedHeight: Uint64, seedHash: EngineSteps.Seed)
      requires Valid() && i < 2
      modifies this`caches, this`refills, slots, caches
      ensures Valid() && fresh(caches - old(caches)) && old(caches) <= caches
      ensures slots[i].cache != null
      ensures slots[i].hash == seedHash && slots[i].height == seedHeight
      ensures slots[1 - i] == old(slots[1 - i])
      ensures old(slots[i].cache) != null ==> slots[i].cache == old(slots[i].cache)
      ensures var was := old(slots[i]);
              var ready := was.cache != null && was.hash == seedHash && was.height == seedHeight;
              refills == old(refills) + if ready then 0 else 1
    {
      var cache := slots[i].cache;
      if cache == null {
        cache := new RandomxCache();
      }
      if !UpToDate(i, seedHeight, seedHash) {
        cache.Init(seedHash);
        caches, refills := caches + {cache}, refills + 1;
        slots[i] := slots[i].(cache := cache);
        slots[i] := slots[i].(height := seedHeight);
        slots[i] := slots[i].(hash := seedHash);
      }
    }

    /** Lines 235-277: the machine is created for the slot's cache or rebound to it. */
    method BindMachine(i: nat)
      requires Valid() && i < 2 && slots[i].cache != null
      modifies this`vm, vm
      ensures Valid()
      ensures vm != null && (if old(vm) == null then fresh(vm) else vm == old(vm))
      ensures vm.cache == slots[i].cache && vm.boundKey == Some(slots[i].hash)
    {
      if vm == null {
        vm := new RandomxVm(slots[i].cache);
      } else {
        vm.SetCache(slots[i].cache);
      }
    }

    /** Every call returns the memoryless hash, whatever ran before; only the chosen slot changes. */
    method SlowHash(mainHeight: Uint64, seedHeight: Uint64, seedHash: EngineSteps.Seed, data: Bytes, isAlt: bool)
      returns (hash: Bytes)
      requires Valid()
      modifies this`vm, this`caches, this`refills, slots, caches, vm
      ensures Valid() && fresh(caches - old(caches)) && old(caches) <= caches
      ensures vm != null && (if old(vm) == null then fresh(vm) else vm == old(vm))
      ensures hash == hashFn(seedHash, data)
      ensures var i := ChooseSlot(mainHeight, seedHeight, seedHash, isAlt, old(slots[Toggle(mainHeight)].hash)).slot;
              && slots[i].hash == seedHash && slots[i].height == seedHeight && slots[i].cache == vm.cache
              && slots[1 - i] == old(slots[1 - i])
              && var was := old(slots[i]);
              var ready := was.cache != null && was.hash == seedHash && was.height == seedHeight;
              refills == old(refills) + if ready then 0 else 1
      ensures forall i :: 0 <= i < 2 && old(slots[i].cache) != null ==> slots[i].cache == old(slots[i].cache)
    {
      var choice := ChooseSlot(mainHeight, seedHeight, seedHash, isAlt, slots[Toggle(mainHeight)].hash);
      PrepareSlot(choice.slot, seedHeight, seedHash);
      BindMachine(choice.slot);
      hash := vm.CalculateHash(hashFn, data);
    }

    /** Frees the machine; the caches and their records stay. */
    method FreeState()
      requires Valid()
      modifies this`vm
      ensures Valid() && vm == null
    {
      if vm != null {
        vm := null;
      }
    }

    /** Marks the slots at or above the split as stale, and with them the dataset if it was built for the
        height of one of them; the caches stay as they are. */
    method Reorg(split: Uint64)
      requires Valid()
      modifies slots, this`datasetHeight
      ensures Valid()
      ensures forall i :: 0 <= i < 2 ==>
        slots[i] == old(slots[i]).(height := if split <= old(slots[i].height) then 1 else old(slots[i].height))
      ensures datasetHeight ==
        if exists i :: 0 <= i < 2 && split <= old(slots[i].height) == old(datasetHeight) then 1 else old(datasetHeight)
    {
      for i := 0 to 2
        invariant forall k :: 0 <= k < i ==>
          slots[k] == old(slots[k]).(height := if split <= old(slots[k].height) then 1 else old(slots[k].height))
        invariant forall k :: i <= k < 2 ==> slots[k] == old(slots[k])
        invariant datasetHeight ==
          if exists k :: 0 <= k < i && split <= old(slots[k].height) == old(datasetHeight) then 1
          else old(datasetHeight)
      {
        if split <= slots[i].height {
          if slots[i].height == datasetHeight {
            datasetHeight := 1;
          }
          slots[i] := slots[i].(height := 1);
        }
      }
    }
  }
}
