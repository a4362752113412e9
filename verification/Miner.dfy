/** The miner's own fields and methods, run by one thread at a time: publishing a solution, reading it
    back, and draining the event queue (src/qrandomx/qrxminer.cpp:79-117, 153-175, 225-262 and 274-315). */
module Miner {
  import opened Basics
  import opened Bignum
  import opened NonceSearch
  import PowHelper
  import M = MinerSteps

  /** The events the handler gets to see: those of the current sequence number, in order. */
  function Current(events: seq<M.Event>, sequence: nat): (r: seq<M.Event>)
  {
    if events == [] then []
    else
      Current(events[..|events| - 1], sequence)
        + (if events[|events| - 1].sequence == sequence then [events[|events| - 1]] else [])
  }

  /** Nothing outdated gets through, and nothing current gets lost. */
  lemma {:induction false} CurrentIsExact(events: seq<M.Event>, sequence: nat, e: M.Event)
    ensures e in Current(events, sequence) <==> e in events && e.sequence == sequence
  {
    if events != [] {
      var n := |events| - 1;
      CurrentIsExact(events[..n], sequence, e);
      assert events == events[..n] + [events[n]];
    }
  }

  /** Events keep their order. */
  lemma {:induction false} CurrentKeepsOrder(events: seq<M.Event>, more: seq<M.Event>, sequence: nat)
    ensures Current(events + more, sequence) == Current(events, sequence) + Current(more, sequence)
    decreases more
  {
    if more == [] {
      assert events + more == events;
    } else {
      var n := |more| - 1;
      CurrentKeepsOrder(events, more[..n], sequence);
      assert (events + more)[..|events + more| - 1] == events + more[..n];
    }
  }

  class QRXMiner {
    const hashFn: HashFn
    var job: Job
    var stopRequest: bool
    var solutionFound: bool
    var solutionInput: Bytes
    var solutionHash: Bytes
    var workSequenceId: nat
    var eventQueue: seq<M.Event>

    /** A published solution is a solution of the current job. */
    ghost predicate Valid()
      reads this
    {
      && WellFormed(job)
      && (solutionFound ==>
            exists nonce: Uint32 ::
              solutionInput == WithNonce(job.input, job.offset, nonce) && Solves(hashFn, job, nonce)
              && solutionHash == HashAt(hashFn, job, nonce))
    }

    constructor (hashFn: HashFn, job: Job)
      requires WellFormed(job)
      ensures Valid() && this.hashFn == hashFn && !solutionFound && workSequenceId == 0 && eventQueue == []
    {
      this.hashFn := hashFn;
      this.job := job;
      stopRequest, solutionFound := false, false;
      solutionInput, solutionHash := [], [];
      workSequenceId, eventQueue := 0, [];
    }

    method QueueEvent(event: M.Event)
      modifies this`eventQueue
      ensures eventQueue == old(eventQueue) + [event]
    {
      eventQueue := eventQueue + [event];
    }

    method Cancel()
      requires Valid()
      modifies this`stopRequest, this`workSequenceId
      ensures Valid() && stopRequest && workSequenceId == old(workSequenceId) + 1
    {
      stopRequest := true;
      workSequenceId := workSequenceId + 1;
    }

    /** A new job forgets the last solution; its number is above those of all earlier events. */
    method Start(newJob: Job) returns (sequence: nat)
      requires Valid() && WellFormed(newJob)
      requires forall k :: 0 <= k < |eventQueue| ==> eventQueue[k].sequence <= workSequenceId
      modifies this
      ensures Valid() && job == newJob && !stopRequest && !solutionFound
      ensures sequence == workSequenceId == old(workSequenceId) + 1 && eventQueue == old(eventQueue)
      ensures Current(eventQueue, sequence) == []
    {
      Cancel();
      job := newJob;
      stopRequest, solutionFound := false, false;
      sequence := workSequenceId;
      NothingCurrent(eventQueue, sequence);
    }

    /** The block under the solution mutex: the first solution wins. */
    method Publish(nonce: Uint32, input: Bytes, hash: Bytes)
      requires Valid() && input == WithNonce(job.input, job.offset, nonce) && hash == hashFn(job.seedHash, input)
      modifies this`solutionFound, this`solutionInput, this`solutionHash, this`eventQueue
      ensures Valid() && solutionFound == (old(solutionFound) || Solves(hashFn, job, nonce))
      ensures solutionFound && !old(solutionFound) ==>
        && solutionInput == input && solutionHash == hash
        && eventQueue == old(eventQueue) + [M.Event(M.Solution, workSequenceId, nonce)]
      ensures solutionFound == old(solutionFound) ==>
        && solutionInput == old(solutionInput) && solutionHash == old(solutionHash)
        && eventQueue == old(eventQueue)
    {
      var passes := PowHelper.PassesTarget(hash, job.target);
      if passes && !solutionFound {
        solutionFound := true;
        solutionInput, solutionHash := input, hash;
        QueueEvent(M.Event(M.Solution, workSequenceId, nonce));
      }
    }

    /** One worker from its start to its end: it publishes exactly when one of its nonces solves the job,
        and then the first of them, which the accessor reads back. */
    method Work(worker: Uint32, stride: Byte, patience: nat) returns (tries: nat)
      requires Valid() && !solutionFound
      modifies this`solutionFound, this`solutionInput, this`solutionHash, this`eventQueue
      ensures Valid()
      ensures solutionFound <==> exists k :: 0 <= k < patience && Solves(hashFn, job, NthNonce(worker, stride, k))
      ensures solutionFound ==>
        && tries < patience && Solves(hashFn, job, NthNonce(worker, stride, tries))
        && (forall k :: 0 <= k < tries ==> !Solves(hashFn, job, NthNonce(worker, stride, k)))
        && NonceOf(solutionInput, job.offset) == NthNonce(worker, stride, tries)
        && eventQueue == old(eventQueue) + [M.Event(M.Solution, workSequenceId, NthNonce(worker, stride, tries))]
      ensures !solutionFound ==> eventQueue == old(eventQueue)
    {
      var found, nonce, input, hash;
      found, nonce, input, hash, tries := Search(hashFn, job, worker, stride, patience);
      if found {
        Publish(nonce, input, hash);
      }
    }

    /** Reads the four nonce bytes in network byte order. */
    method SolutionNonce() returns (nonce: nat)
      requires HasRoom(solutionInput, job.offset)
      ensures nonce == NonceOf(solutionInput, job.offset)
    {
      nonce := 0;
      ghost var stored := solutionInput[job.offset..job.offset + NONCE_BYTES];
      for i := 0 to NONCE_BYTES
        invariant nonce == BigEndian(stored[..i])
      {
        TakeOneMore(stored, i);
        nonce := nonce * 256 + solutionInput[job.offset + i];
      }
      assert stored[..NONCE_BYTES] == stored;
    }

    /** The event thread's loop with a handler that accepts every event: the queue runs empty, and the
        handler sees the current events in order and no others. */
    method DrainEvents() returns (delivered: seq<M.Event>)
      modifies this`eventQueue
      ensures eventQueue == [] && delivered == Current(old(eventQueue), workSequenceId)
    {
      delivered := [];
      ghost var all, n := eventQueue, 0;
      while eventQueue != []
        invariant n <= |all| && eventQueue == all[n..]
        invariant delivered == Current(all[..n], workSequenceId)
        decreases |eventQueue|
      {
        var event := eventQueue[0];
        eventQueue := eventQueue[1..];
        if event.sequence == workSequenceId {
          delivered := delivered + [event];
        }
        assert all[..n + 1][..n] == all[..n];
        n := n + 1;
      }
      assert all[..n] == all;
    }
  }

  lemma {:induction false} NothingCurrent(events: seq<M.Event>, sequence: nat)
    requires forall k :: 0 <= k < |events| ==> events[k].sequence < sequence
    ensures Current(events, sequence) == []
  {
    if events != [] {
      NothingCurrent(events[..|events| - 1], sequence);
    }
  }
}
