/** Splitting the dataset between seed threads (src/qrandomx/rx-slow-hash.c:138-187). */
module DatasetInit {
  import opened Basics

  /** The items one seed thread initialises. */
  datatype SeedInfo = SeedInfo(start: nat, count: nat)

  function Delta(total: nat, miners: nat): nat
    requires miners > 0
  {
    total / miners
  }

  predicate InChunk(chunk: SeedInfo, item: nat) {
    chunk.start <= item < chunk.start + chunk.count
  }

  /** The loop gives every thread but the last an equal share and the last one the rest. */
  method SplitWork(total: nat, miners: nat) returns (si: array<SeedInfo>)
    requires miners > 1
    ensures fresh(si) && si[..] == Chunks(total, miners)
  {
    SharesFit(total, miners, miners - 1);
    var delta := Delta(total, miners);
    var start := 0;
    si := new SeedInfo[miners](_ => SeedInfo(0, 0));
    var i := 0;
    while i < miners - 1
      invariant 0 <= i <= miners - 1
      invariant start == i * delta
      invariant forall k :: 0 <= k < i ==> si[k] == SeedInfo(k * delta, delta)
    {
      si[i] := SeedInfo(start, delta);
      start := start + delta;
      i := i + 1;
    }
    si[i] := SeedInfo(start, total - start);
  }

  function Chunks(total: nat, miners: nat): (chunks: seq<SeedInfo>)
    requires miners > 1
    ensures |chunks| == miners
  {
    SharesFit(total, miners, miners - 1);
    var delta := Delta(total, miners);
    seq(miners, i requires 0 <= i < miners =>
      SharesFit(total, miners, i);
      if i < miners - 1 then SeedInfo(i * delta, delta) else SeedInfo(i * delta, total - i * delta))
  }

  /** Every thread but the last has the same whole share of the items, and the last one what is left. */
  lemma ChunkSizes(total: nat, miners: nat, i: nat)
    requires miners > 1 && i < miners
    ensures var share := total / miners;
            && Chunks(total, miners)[i].start == i * share
            && Chunks(total, miners)[i].count == if i < miners - 1 then share else share + total % miners
  {
    var share := total / miners;
    assert total == miners * share + total % miners;
    assert miners * share == (miners - 1) * share + share;
  }

  lemma SharesFit(total: nat, miners: nat, i: nat)
    requires i <= miners && miners > 0
    ensures 0 <= i * Delta(total, miners) <= total
  {
    var delta := Delta(total, miners);
    MulOrder(i, miners, delta);
    assert total == miners * delta + total % miners;
    assert miners * delta == delta * miners;
    MulOrder(0, i, delta);
  }

  /** The chunk that holds an item. */
  function OwnerOf(total: nat, miners: nat, item: nat): (i: nat)
    requires miners > 1
    ensures i < miners
  {
    var delta := Delta(total, miners);
    if delta == 0 || item / delta >= miners - 1 then miners - 1 else item / delta
  }

  /** Exact cover: every item of the dataset is in exactly one chunk, and no chunk reaches outside. */
  lemma ExactCover(total: nat, miners: nat, item: nat, i: nat)
    requires miners > 1 && i < miners
    ensures InChunk(Chunks(total, miners)[i], item) <==> item < total && i == OwnerOf(total, miners, item)
  {
    var delta := Delta(total, miners);
    var chunk := Chunks(total, miners)[i];
    SharesFit(total, miners, i);
    SharesFit(total, miners, i + 1);
    assert (i + 1) * delta == i * delta + delta;
    if delta == 0 {
      assert i * delta == 0;
    } else {
      QuotientByShares(item, delta, i);
      QuotientByShares(item, delta, miners - 1);
    }
  }

  lemma QuotientByShares(item: nat, delta: nat, i: nat)
    requires delta > 0
    ensures item / delta >= i <==> item >= i * delta
    ensures item / delta == i <==> i * delta <= item < i * delta + delta
  {
    var q := item / delta;
    assert item == q * delta + item % delta;
    if q >= i {
      MulOrder(i, q, delta);
    } else {
      MulOrder(q + 1, i, delta);
    }
    if q > i {
      MulOrder(i + 1, q, delta);
    }
  }

  // ---------------------------------------------------------------------------------------------
  // Interleavings of the seed threads
  // ---------------------------------------------------------------------------------------------

  /** How far each thread is, what is in the dataset, and how often each item was written. */
  datatype State<T> = State(done: seq<nat>, dataset: seq<Option<T>>, writes: seq<nat>)

  function Initial<T>(total: nat, miners: nat): State<T> {
    State(seq(miners, _ => 0), seq(total, _ => None), seq(total, _ => 0))
  }

  predicate Running<T>(s: State<T>, chunks: seq<SeedInfo>, i: nat) {
    i < |s.done| == |chunks| && s.done[i] < chunks[i].count
      && |s.dataset| == |s.writes| && chunks[i].start + s.done[i] < |s.dataset|
  }

  /** Thread i computes its next item. */
  function Write<T>(s: State<T>, chunks: seq<SeedInfo>, items: nat -> T, i: nat): State<T>
    requires Running(s, chunks, i)
  {
    var item := chunks[i].start + s.done[i];
    State(s.done[i := s.done[i] + 1],
          s.dataset[item := Some(items(item))],
          s.writes[item := s.writes[item] + 1])
  }

  /** A schedule names the thread that moves; a finished thread does not. */
  function After<T>(total: nat, miners: nat, items: nat -> T, schedule: seq<nat>): State<T>
    requires miners > 1
  {
    if schedule == [] then Initial(total, miners)
    else
      var before := After(total, miners, items, schedule[..|schedule| - 1]);
      var i := schedule[|schedule| - 1];
      if Running(before, Chunks(total, miners), i) then Write(before, Chunks(total, miners), items, i) else before
  }

  /** The item has been reached by the thread that owns it. */
  predicate Reached<T>(s: State<T>, total: nat, miners: nat, item: nat)
    requires miners > 1 && |s.done| == miners
  {
    var i := OwnerOf(total, miners, item);
    item < Chunks(total, miners)[i].start + s.done[i]
  }

  ghost predicate Inv<T>(s: State<T>, total: nat, miners: nat, items: nat -> T)
    requires miners > 1
  {
    && |s.done| == miners && |s.dataset| == |s.writes| == total
    && (forall i :: 0 <= i < miners ==> s.done[i] <= Chunks(total, miners)[i].count)
    && (forall k :: 0 <= k < total ==> s.writes[k] == (if Reached(s, total, miners, k) then 1 else 0))
    && (forall k :: 0 <= k < total ==> s.dataset[k] == (if Reached(s, total, miners, k) then Some(items(k)) else None))
  }

  lemma WriteKeeps<T>(s: State<T>, total: nat, miners: nat, items: nat -> T, i: nat)
    requires miners > 1 && Inv(s, total, miners, items) && Running(s, Chunks(total, miners), i)
    ensures Inv(Write(s, Chunks(total, miners), items, i), total, miners, items)
  {
    var s' := Write(s, Chunks(total, miners), items, i);
    var written := Chunks(total, miners)[i].start + s.done[i];
    ExactCover(total, miners, written, i);
    forall k | 0 <= k < total
      ensures Reached(s', total, miners, k) <==> Reached(s, total, miners, k) || k == written
    {
      ExactCover(total, miners, k, OwnerOf(total, miners, k));
    }
  }

  lemma {:induction false} Always<T>(total: nat, miners: nat, items: nat -> T, schedule: seq<nat>)
    requires miners > 1
    ensures Inv(After(total, miners, items, schedule), total, miners, items)
  {
    if schedule == [] {
      forall k | 0 <= k < total
        ensures !Reached(Initial<T>(total, miners), total, miners, k)
      {
        ExactCover(total, miners, k, OwnerOf(total, miners, k));
      }
    } else {
      var n := |schedule| - 1;
      Always(total, miners, items, schedule[..n]);
      var before := After(total, miners, items, schedule[..n]);
      if Running(before, Chunks(total, miners), schedule[n]) {
        WriteKeeps(before, total, miners, items, schedule[n]);
      }
    }
  }

  /** In every interleaving no item is written twice, and once all threads are done every item has
      been written exactly once: the dataset is that of a single whole-range initialisation. */
  lemma InterleavingsAgree<T>(total: nat, miners: nat, items: nat -> T, schedule: seq<nat>)
    requires miners > 1
    ensures var s := After(total, miners, items, schedule);
            && |s.done| == miners && |s.dataset| == |s.writes| == total
            && (forall k :: 0 <= k < total ==> s.writes[k] <= 1)
            && ((forall i :: 0 <= i < miners ==> !Running(s, Chunks(total, miners), i)) ==>
                  && s.writes == seq(total, _ => 1)
                  && s.dataset == seq(total, k requires 0 <= k < total => Some(items(k))))
  {
    Always(total, miners, items, schedule);
    var s := After(total, miners, items, schedule);
    if forall i :: 0 <= i < miners ==> !Running(s, Chunks(total, miners), i) {
      forall k | 0 <= k < total
        ensures Reached(s, total, miners, k)
      {
        var i := OwnerOf(total, miners, k);
        ExactCover(total, miners, k, i);
        if s.done[i] < Chunks(total, miners)[i].count {
          ExactCover(total, miners, Chunks(total, miners)[i].start + s.done[i], i);
          assert Running(s, Chunks(total, miners), i);
        }
      }
    }
  }

  // ---------------------------------------------------------------------------------------------
  // The operations
  // ---------------------------------------------------------------------------------------------

  /** What a seed thread runs: its own range, in place. */
  method InitRange<T>(dataset: array<T>, items: nat -> T, start: nat, count: nat)
    requires start + count <= dataset.Length
    modifies dataset
    ensures forall k :: 0 <= k < dataset.Length ==>
      dataset[k] == if start <= k < start + count then items(k) else old(dataset[k])
  {
    for i := start to start + count
      invariant forall k :: 0 <= k < dataset.Length ==>
        dataset[k] == if start <= k < i then items(k) else old(dataset[k])
    {
      dataset[i] := items(i);
    }
  }

  /** Initialises the dataset with any number of miners and returns the height it is now for. The ranges
      are written one after the other here; `InterleavingsAgree` is about the threads. */
  method InitData<T>(dataset: array<T>, items: nat -> T, miners: nat, seedHeight: Uint64)
    returns (datasetHeight: Uint64)
    modifies dataset
    ensures forall k :: 0 <= k < dataset.Length ==> dataset[k] == items(k)
    ensures datasetHeight == seedHeight
  {
    var total := dataset.Length;
    if miners > 1 {
      var si := SplitWork(total, miners);
      var chunks := si[..];
      for i := 0 to miners
        invariant si[..] == chunks == Chunks(total, miners)
        invariant forall k :: 0 <= k < total && OwnerOf(total, miners, k) < i ==> dataset[k] == items(k)
      {
        ghost var before := dataset[..];
        ChunkInside(total, miners, i);
        InitRange(dataset, items, chunks[i].start, chunks[i].count);
        forall k | 0 <= k < total && OwnerOf(total, miners, k) <= i
          ensures dataset[k] == items(k)
        {
          ExactCover(total, miners, k, i);
          assert OwnerOf(total, miners, k) < i ==> before[k] == items(k);
        }
      }
    } else {
      InitRange(dataset, items, 0, total);
    }
    datasetHeight := seedHeight;
  }

  lemma ChunkInside(total: nat, miners: nat, i: nat)
    requires miners > 1 && i < miners
    ensures Chunks(total, miners)[i].start + Chunks(total, miners)[i].count <= total
  {
    SharesFit(total, miners, i + 1);
    var delta := Delta(total, miners);
    assert (i + 1) * delta == i * delta + delta;
  }
}
