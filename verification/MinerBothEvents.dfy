/** The bound of one event of each kind per sequence number is tight: a run in which one job creates both
    (src/qrandomx/qrxminer.cpp:213-233). */
module MinerBothEvents {
  import opened Basics
  import opened NonceSearch
  import opened MinerSteps
  import opened MinerTheorems
  import opened MinerRuns

  /** Nobody stops or holds up the workers. */
  predicate Unhindered(s: State) {
    !s.stop && !s.found && s.queueLock == None && s.solution == None && s.reader == None && WellFormed(s.job)
  }

  /** A worker after its first hash. */
  function Hasher(h: HashFn, s: State, w: Worker): Worker
    requires WellFormed(s.job)
  {
    w.(pc := if w.index == 0 then CheckDeadline else Compare,
       buffer := WithNonce(s.job.input, s.job.offset, w.nonce),
       hash := HashAt(h, s.job, w.nonce))
  }

  lemma FirstHash(h: HashFn, s: State, i: nat) returns (t: State)
    requires Reachable(h, s) && i < |s.workers| && s.workers[i].pc.Born? && Unhindered(s)
    ensures Reachable(h, t)
    ensures t == s.(count := s.count + 1, workers := s.workers[i := Hasher(h, s, s.workers[i])])
  {
    var w := s.workers[i].(buffer := s.job.input);
    t := DoSearch(h, s, i);
    assert t == s.(count := s.count + 1, workers := s.workers[i := w.(pc := TestStop)]);
    t := DoSearch(h, t, i);
    t := DoSearch(h, t, i);
    assert t == s.(count := s.count + 1, workers := s.workers[i := w.(pc := WriteNonce)]);
    t := DoSearch(h, t, i);
    t := DoSearch(h, t, i);
  }

  /** A passing worker raises the found flag. */
  lemma Finds(h: HashFn, s: State, i: nat) returns (t: State)
    requires Reachable(h, s) && i < |s.workers| && s.workers[i].pc.Compare? && Unhindered(s)
    requires Passes(s.workers[i].hash, s.job.target)
    ensures Reachable(h, t)
    ensures t == s.(found := true, solution := Some(i), workers := s.workers[i := s.workers[i].(pc := SetInput)])
  {
    t := DoSearch(h, s, i);
    t := DoPublish(h, t, i);
    t := DoPublish(h, t, i);
    assert t == s.(solution := Some(i), workers := s.workers[i := s.workers[i].(pc := SetFound)]);
    t := DoPublish(h, t, i);
  }

  /** It stores its solution. */
  lemma Stores(h: HashFn, s: State, i: nat) returns (t: State)
    requires Reachable(h, s) && i < |s.workers| && s.workers[i].pc.SetInput?
    ensures Reachable(h, t)
    ensures t == s.(input := s.workers[i].buffer, hash := s.workers[i].hash,
                    workers := s.workers[i := s.workers[i].(pc := QueueSolution)])
  {
    t := DoPublish(h, s, i);
    t := DoPublish(h, t, i);
  }

  /** And announces it. */
  lemma Announces(h: HashFn, s: State, i: nat) returns (t: State)
    requires Reachable(h, s) && i < |s.workers| && s.workers[i].pc.QueueSolution? && s.queueLock == None
    ensures Reachable(h, t)
    ensures var e := Event(Solution, s.workers[i].sequence, s.workers[i].nonce);
            t == s.(queue := s.queue + [e], created := s.created + [e],
                    workers := s.workers[i := s.workers[i].(pc := LeaveSolution)])
  {
    t := DoPublish(h, s, i);
    t := DoPublish(h, t, i);
  }

  /** Worker 0 finds the deadline passed. */
  lemma TimesOut(h: HashFn, s: State) returns (t: State)
    requires Reachable(h, s) && |s.workers| > 0 && s.workers[0].pc.CheckDeadline? && s.workers[0].index == 0
    requires s.queueLock == None
    ensures Reachable(h, t)
    ensures var e := Event(Timeout, s.workers[0].sequence, 0);
            t == s.(queue := s.queue + [e], created := s.created + [e],
                    workers := s.workers[0 := s.workers[0].(pc := StopAll)])
  {
    t := Do(h, s, Expire(0));
    t := DoTimeout(h, t, 0);
    t := DoTimeout(h, t, 0);
  }

  /** A job of two threads, with its workers created. */
  lemma TwoWorkers(h: HashFn, request: Request) returns (t: State)
    requires WellFormed(request.job) && request.threadCount == 2
    ensures Reachable(h, t) && Unhindered(t) && t.job == request.job && t.created == []
    ensures t.jobSequence == t.sequence && t.workers == [NewWorker(t, 0), NewWorker(t, 1)]
  {
    t := StartFirstHalf(h, request);
    t := ResetAndRead(h, t, 1);
    t := DoGate(h, t, 1);
    assert t.actors[1] == Spawning(0) && t.workers == [];
    t := DoSpawn(h, t, 1);
    assert t.actors[1] == Spawning(1) && t.workers == [NewWorker(t, 0)];
    t := DoSpawn(h, t, 1);
  }

  /** For every job of two threads that nonce 1 solves, some run creates its SOLUTION and its TIMEOUT, both
      with the current sequence number. */
  lemma BothKindsOccur(h: HashFn, request: Request) returns (t: State)
    requires WellFormed(request.job) && request.threadCount == 2 && Solves(h, request.job, 1)
    ensures Reachable(h, t) && t.jobSequence == t.sequence
    ensures t.created == [Event(Solution, t.sequence, 1), Event(Timeout, t.sequence, 0)]
  {
    t := TwoWorkers(h, request);
    t := FirstHash(h, t, 0);
    t := FirstHash(h, t, 1);
    t := Finds(h, t, 1);
    t := Stores(h, t, 1);
    t := Announces(h, t, 1);
    t := TimesOut(h, t);
  }
}
