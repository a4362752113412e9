/** The proxy's own code, run by one thread: the queue it drains and the requests it answers in place
    (src/qrandomx/threadedqrandomx.cpp:40-44 and 74-112). */
module ThreadedProxy {
  import opened SeedEpochs
  import opened HashEngine
  import P = ProxySteps

  /** A request shared by its caller and the proxy. */
  class QRandomXParams {
    const params: P.Params
    var output: seq<P.Output>

    constructor (params: P.Params)
      ensures this.params == params && output == []
    {
      this.params := params;
      output := [];
    }
  }

  class ThreadedQRandomX {
    var eventQueue: seq<QRandomXParams>

    constructor ()
      ensures eventQueue == []
    {
      eventQueue := [];
    }

    method SubmitWork(request: QRandomXParams)
      modifies this
      ensures eventQueue == old(eventQueue) + [request]
    {
      eventQueue := eventQueue + [request];
    }

    /** Takes the whole queue, front first, in one critical section. */
    method DrainQueue() returns (events: seq<QRandomXParams>)
      modifies this
      ensures events == old(eventQueue) && eventQueue == []
    {
      events := [];
      while eventQueue != []
        invariant events + eventQueue == old(eventQueue)
        decreases |eventQueue|
      {
        var event := eventQueue[0];
        events := events + [event];
        eventQueue := eventQueue[1..];
      }
    }

    /** The switch over the three kinds of request. */
    method Execute(params: P.Params, engine: Engine) returns (result: P.Output)
      requires engine.Valid()
      modifies engine`vm, engine`caches, engine`refills, engine.slots, engine.caches, engine.vm
      ensures engine.Valid() && fresh(engine.caches - old(engine.caches)) && old(engine.caches) <= engine.caches
      ensures engine.vm == null || engine.vm == old(engine.vm) || fresh(engine.vm)
      ensures result == P.Direct(engine.hashFn, params)
      ensures params.HashParams? ==> result == P.HashOutput(engine.hashFn(params.seedHash, params.input))
      ensures params.HeightParams? ==>
        result == P.HeightOutput(if params.height < 65 then 0 else (params.height - 65) / 2048 * 2048)
      ensures params.FreeParams? ==>
        result == P.NoOutput && engine.vm == null && engine.slots[..] == old(engine.slots[..])
      ensures params.HeightParams? ==> engine.vm == old(engine.vm) && engine.slots[..] == old(engine.slots[..])
      ensures params.HashParams? ==>
        var i := ChooseSlot(params.mainHeight, params.seedHeight, params.seedHash, params.isAlt,
                            old(engine.slots[Toggle(params.mainHeight)].hash)).slot;
        && engine.slots[i].hash == params.seedHash && engine.slots[i].height == params.seedHeight
        && engine.slots[1 - i] == old(engine.slots[1 - i])
    {
      P.DirectByKind(engine.hashFn, params);
      match params {
        case HashParams(mainHeight, seedHeight, seedHash, input, isAlt) =>
          var hash := engine.SlowHash(mainHeight, seedHeight, seedHash, input, isAlt);
          result := P.HashOutput(hash);
        case HeightParams(height) =>
          result := P.HeightOutput(SeedHeight(height));
        case FreeParams =>
          engine.FreeState();
          result := P.NoOutput;
      }
    }

    /** Answers every request of a batch in order: each gets exactly the result of a direct call, so a
        run of hashes, height queries and frees never shows what the engine remembers. */
    method ProcessEvents(events: seq<QRandomXParams>, engine: Engine)
      requires engine.Valid()
      requires forall i, j :: 0 <= i < j < |events| ==> events[i] != events[j]
      modifies events, engine`vm, engine`caches, engine`refills, engine.slots, engine.caches, engine.vm
      ensures engine.Valid()
      ensures forall i :: 0 <= i < |events| ==>
        && |events[i].output| == |old(events[i].output)| + 1 && old(events[i].output) <= events[i].output
        && var p, v := events[i].params, events[i].output[|old(events[i].output)|];
           && (p.HashParams? ==> v == P.HashOutput(engine.hashFn(p.seedHash, p.input)))
           && (p.HeightParams? ==>
                 v == P.HeightOutput(if p.height < 65 then 0 else (p.height - 65) / 2048 * 2048))
           && (p.FreeParams? ==> v == P.NoOutput)
    {
      for i := 0 to |events|
        invariant engine.Valid()
        invariant fresh(engine.caches - old(engine.caches))
        invariant engine.vm == null || engine.vm == old(engine.vm) || fresh(engine.vm)
        invariant forall k :: 0 <= k < i ==>
          events[k].output == old(events[k].output) + [P.Direct(engine.hashFn, events[k].params)]
        invariant forall k :: i <= k < |events| ==> events[k].output == old(events[k].output)
      {
        var result := Execute(events[i].params, engine);
        events[i].output := events[i].output + [result];
      }
      forall i | 0 <= i < |events| {
        P.DirectByKind(engine.hashFn, events[i].params);
      }
    }
  }
}
