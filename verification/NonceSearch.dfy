/** How the workers of src/qrandomx/qrxminer.cpp share the 32-bit nonces, and the search loop of one
    worker over its own copy of the input (lines 105-111 and 183-236). */
module NonceSearch {
  import opened Basics
  import opened Bignum
  import PowHelper

  const NONCE_BYTES: nat := 4

  // ---------------------------------------------------------------------------------------------
  // Which nonces a worker tries
  // ---------------------------------------------------------------------------------------------

  /** The step between two nonces of a worker: the worker takes the thread count as one byte. */
  function Stride(threadCount: Uint32): Byte {
    threadCount % 256
  }

  /** The k-th nonce of a worker, in 32-bit arithmetic. */
  function NthNonce(worker: nat, stride: nat, k: nat): Uint32 {
    (worker + k * stride) % TWO_32
  }

  /** Adding the stride in 32 bits leads from one nonce to the next. */
  lemma NonceStep(worker: nat, stride: nat, k: nat)
    ensures (NthNonce(worker, stride, k) + stride) % TWO_32 == NthNonce(worker, stride, k + 1)
  {
    AddMod(worker + k * stride, stride);
    assert worker + k * stride + stride == worker + (k + 1) * stride;
  }

  lemma AddMod(a: nat, b: nat)
    ensures (a % TWO_32 + b) % TWO_32 == (a + b) % TWO_32
  {
    var q, r := a / TWO_32, a % TWO_32;
    assert a + b == q * TWO_32 + (r + b);
    ModPlusMultiple(r + b, q);
  }

  lemma ModPlusMultiple(a: nat, q: nat)
    ensures (q * TWO_32 + a) % TWO_32 == a % TWO_32
  {
    var d, m := a / TWO_32, a % TWO_32;
    assert q * TWO_32 + a == (q + d) * TWO_32 + m;
  }

  /** Worker i tries x as its k-th nonce, and its counter has not wrapped by then. */
  predicate Tries(threadCount: Uint32, i: nat, k: nat, x: Uint32) {
    i < threadCount && i + k * Stride(threadCount) < TWO_32 && NthNonce(i, Stride(threadCount), k) == x
  }

  /** No nonce is tried twice, by one worker or by two. */
  ghost predicate NoNonceTwice(threadCount: Uint32) {
    forall i: nat, k: nat, j: nat, l: nat, x: Uint32 ::
      Tries(threadCount, i, k, x) && Tries(threadCount, j, l, x) ==> i == j && k == l
  }

  ghost predicate EveryNonceTried(threadCount: Uint32) {
    forall x: Uint32 :: Tried(threadCount, x)
  }

  ghost predicate Tried(threadCount: Uint32, x: Uint32) {
    exists i: nat, k: nat :: Tries(threadCount, i, k, x)
  }

  /** The sequences of all workers, each up to its wrap, contain every nonce exactly once. */
  ghost predicate ExactPartition(threadCount: Uint32) {
    NoNonceTwice(threadCount) && EveryNonceTried(threadCount)
  }

  lemma SameResidue(i: nat, k: nat, j: nat, l: nat, n: nat)
    requires i < n && j < n && i + k * n == j + l * n
    ensures i == j && k == l
  {
    if k < l {
      MulOrder(k + 1, l, n);
    } else if l < k {
      MulOrder(l + 1, k, n);
    }
  }

  /** Two tries of workers that share the nonces never meet before a counter wraps. */
  lemma DistinctTries(threadCount: Uint32, i: nat, k: nat, j: nat, l: nat)
    requires 1 <= threadCount <= 255 && i < threadCount && j < threadCount && (i != j || k != l)
    requires i + k * threadCount < TWO_32 && j + l * threadCount < TWO_32
    ensures NthNonce(i, Stride(threadCount), k) != NthNonce(j, Stride(threadCount), l)
  {
    if i + k * threadCount == j + l * threadCount {
      SameResidue(i, k, j, l, threadCount);
    }
  }

  lemma NonceIsTried(threadCount: Uint32, x: Uint32)
    requires 1 <= threadCount <= 255
    ensures Tries(threadCount, x % threadCount, x / threadCount, x)
  {
    var n := threadCount;
    assert x == n * (x / n) + x % n;
    assert x % n + (x / n) * n == x;
  }

  lemma NoTwoTries(threadCount: Uint32, i: nat, k: nat, j: nat, l: nat, x: Uint32)
    requires 1 <= threadCount <= 255 && Tries(threadCount, i, k, x) && Tries(threadCount, j, l, x)
    ensures i == j && k == l
  {
    if i != j || k != l {
      DistinctTries(threadCount, i, k, j, l);
    }
  }

  lemma SmallCountsPartition(threadCount: Uint32)
    requires 1 <= threadCount <= 255
    ensures ExactPartition(threadCount)
  {
    forall i: nat, k: nat, j: nat, l: nat, x: Uint32
      | Tries(threadCount, i, k, x) && Tries(threadCount, j, l, x)
      ensures i == j && k == l
    {
      NoTwoTries(threadCount, i, k, j, l, x);
    }
    forall x: Uint32 ensures Tried(threadCount, x) {
      NonceIsTried(threadCount, x);
    }
  }

  /** The nonces are split exactly among the workers if and only if there are 1 to 255 of them. With 256
      or more the step no longer fits its byte: worker 0 meets the first nonce of another worker, or
      stays on nonce 0 when the low byte of the count is 0. */
  lemma PartitionIffOneByte(threadCount: Uint32)
    ensures ExactPartition(threadCount) <==> 1 <= threadCount <= 255
  {
    if 1 <= threadCount <= 255 {
      SmallCountsPartition(threadCount);
    } else if threadCount == 0 {
      assert !Tried(threadCount, 0);
    } else {
      var n := Stride(threadCount);
      if n == 0 {
        assert Tries(threadCount, 0, 0, 0) && Tries(threadCount, 0, 1, 0);
      } else {
        assert Tries(threadCount, 0, 1, n) && Tries(threadCount, n, 0, n);
      }
    }
  }

  // ---------------------------------------------------------------------------------------------
  // The nonce inside the input
  // ---------------------------------------------------------------------------------------------

  predicate HasRoom(input: Bytes, offset: nat) {
    offset + NONCE_BYTES <= |input|
  }

  /** The input with the nonce stored at the offset in network byte order. */
  function WithNonce(input: Bytes, offset: nat, nonce: Uint32): (r: Bytes)
    requires HasRoom(input, offset)
    ensures |r| == |input|
  {
    input[..offset] + Encode(nonce, NONCE_BYTES) + input[offset + NONCE_BYTES..]
  }

  /** The number stored at the offset in network byte order. */
  function NonceOf(input: Bytes, offset: nat): nat
    requires HasRoom(input, offset)
  {
    BigEndian(input[offset..offset + NONCE_BYTES])
  }

  /** A stored nonce reads back, no byte outside its four changes, and a second nonce replaces the first
      without trace. */
  lemma NonceRoundTrip(input: Bytes, offset: nat, nonce: Uint32, next: Uint32)
    requires HasRoom(input, offset)
    ensures NonceOf(WithNonce(input, offset, nonce), offset) == nonce
    ensures forall k :: 0 <= k < |input| && !(offset <= k < offset + NONCE_BYTES) ==>
      WithNonce(input, offset, nonce)[k] == input[k]
    ensures WithNonce(WithNonce(input, offset, nonce), offset, next) == WithNonce(input, offset, next)
  {
    var r := WithNonce(input, offset, nonce);
    assert r[offset..offset + NONCE_BYTES] == Encode(nonce, NONCE_BYTES);
    EncodeValue(nonce, NONCE_BYTES);
    assert Pow256(NONCE_BYTES) == TWO_32;
    assert r[..offset] == input[..offset];
    assert r[offset + NONCE_BYTES..] == input[offset + NONCE_BYTES..];
  }

  /** The four bytes of a nonce, the most significant first, stored and read back. */
  lemma NonceBytes(input: Bytes, offset: nat, nonce: Uint32)
    requires HasRoom(input, offset)
    ensures WithNonce(input, offset, nonce)[offset..offset + NONCE_BYTES] ==
      [nonce / 0x100_0000, nonce / 0x1_0000 % 256, nonce / 256 % 256, nonce % 256]
    ensures NonceOf(input, offset) ==
      input[offset] as int * 0x100_0000 + input[offset + 1] as int * 0x1_0000
        + input[offset + 2] as int * 256 + input[offset + 3]
  {
    var r := WithNonce(input, offset, nonce);
    assert r[offset..offset + NONCE_BYTES] == Encode(nonce, NONCE_BYTES);
    EncodeFour(nonce);
    var four := input[offset..offset + NONCE_BYTES];
    assert four == [four[0], four[1], four[2], four[3]];
    DecodeFour(four[0], four[1], four[2], four[3]);
  }

  lemma EncodeFour(v: Uint32)
    ensures Encode(v, 4) == [v / 0x100_0000, v / 0x1_0000 % 256, v / 256 % 256, v % 256]
  {
    assert Encode(v / 0x1_0000, 2) == [v / 0x100_0000 % 256, v / 0x1_0000 % 256];
    assert Encode(v / 256, 3) == Encode(v / 0x1_0000, 2) + [v / 256 % 256];
  }

  lemma DecodeFour(a: Byte, b: Byte, c: Byte, d: Byte)
    ensures BigEndian([a, b, c, d]) == a as int * 0x100_0000 + b as int * 0x1_0000 + c as int * 256 + d
  {
    assert [a, b, c, d][..3] == [a, b, c] && [a, b, c][..2] == [a, b] && [a, b][..1] == [a] && [a][..0] == [];
    assert BigEndian([a]) == a;
    assert BigEndian([a, b]) == a as int * 256 + b;
    assert BigEndian([a, b, c]) == BigEndian([a, b]) * 256 + c;
  }

  // ---------------------------------------------------------------------------------------------
  // The search loop
  // ---------------------------------------------------------------------------------------------

  datatype Job = Job(seedHash: Bytes, input: Bytes, offset: nat, target: Bytes)

  predicate WellFormed(job: Job) {
    HasRoom(job.input, job.offset)
  }

  /** The verdict of `passesTarget`. */
  predicate Passes(hash: Bytes, target: Bytes) {
    |hash| == WIDTH && |target| == WIDTH && LittleEndian(hash) <= LittleEndian(target)
  }

  function HashAt(h: HashFn, job: Job, nonce: Uint32): Bytes
    requires WellFormed(job)
  {
    h(job.seedHash, WithNonce(job.input, job.offset, nonce))
  }

  predicate Solves(h: HashFn, job: Job, nonce: Uint32)
    requires WellFormed(job)
  {
    Passes(HashAt(h, job, nonce), job.target)
  }

  lemma CutInThree(s: Bytes, i: nat, j: nat)
    requires i <= j <= |s|
    ensures s == s[..i] + s[i..j] + s[j..]
  {
  }

  /** Stores a nonce through a pointer into the buffer, most significant byte first. */
  method StoreNonce(buffer: array<Byte>, offset: nat, nonce: Uint32)
    requires HasRoom(buffer[..], offset)
    modifies buffer
    ensures buffer[..] == WithNonce(old(buffer[..]), offset, nonce)
  {
    var rest := nonce;
    ghost var before := buffer[..];
    for i := 0 to NONCE_BYTES
      invariant 0 <= rest < TWO_32
      invariant Encode(rest, NONCE_BYTES - i) + buffer[offset + NONCE_BYTES - i..offset + NONCE_BYTES]
             == Encode(nonce, NONCE_BYTES)
      invariant buffer[..offset] == before[..offset]
      invariant buffer[offset + NONCE_BYTES..] == before[offset + NONCE_BYTES..]
    {
      ghost var done := buffer[offset + NONCE_BYTES - i..offset + NONCE_BYTES];
      ghost var left := NONCE_BYTES - i;
      assert Encode(rest, left) == Encode(rest / 256, left - 1) + [rest % 256];
      buffer[offset + NONCE_BYTES - 1 - i] := rest % 256;
      assert buffer[offset + NONCE_BYTES - 1 - i..offset + NONCE_BYTES] == [rest % 256] + done;
      rest := rest / 256;
    }
    ghost var after := buffer[..];
    CutInThree(after, offset, offset + NONCE_BYTES);
    assert after[..offset] == before[..offset];
    assert after[offset..offset + NONCE_BYTES] == Encode(nonce, NONCE_BYTES);
    assert after[offset + NONCE_BYTES..] == before[offset + NONCE_BYTES..];
  }

  /** The buffer is the job's input, or that with some nonce stored in it. */
  ghost predicate IsStamped(buffer: Bytes, job: Job)
    requires WellFormed(job)
  {
    buffer == job.input || exists n: Uint32 :: buffer == WithNonce(job.input, job.offset, n)
  }

  lemma StampedAgain(buffer: Bytes, job: Job, nonce: Uint32)
    requires WellFormed(job) && IsStamped(buffer, job)
    ensures HasRoom(buffer, job.offset)
    ensures WithNonce(buffer, job.offset, nonce) == WithNonce(job.input, job.offset, nonce)
  {
    if buffer != job.input {
      var n: Uint32 :| buffer == WithNonce(job.input, job.offset, n);
      NonceRoundTrip(job.input, job.offset, n, nonce);
    }
  }

  /** The loop of one worker until it finds a solution or its patience ends, which stands for the moment
      another thread raises the stop flag. The answer is the first solution among its nonces. */
  method Search(h: HashFn, job: Job, worker: Uint32, stride: Byte, patience: nat)
    returns (found: bool, nonce: Uint32, input: Bytes, hash: Bytes, tries: nat)
    requires WellFormed(job)
    ensures tries <= patience && forall k :: 0 <= k < tries ==> !Solves(h, job, NthNonce(worker, stride, k))
    ensures found <==> tries < patience
    ensures found ==>
      && nonce == NthNonce(worker, stride, tries) && Solves(h, job, nonce)
      && input == WithNonce(job.input, job.offset, nonce) && hash == h(job.seedHash, input)
      && NonceOf(input, job.offset) == nonce
  {
    var buffer := new Byte[|job.input|](i requires 0 <= i < |job.input| => job.input[i]);
    assert buffer[..] == job.input;
    found, nonce, input, hash, tries := false, worker, [], [], 0;
    assert nonce == NthNonce(worker, stride, 0);
    var left := patience;
    while left > 0 && !found
      invariant tries + left == patience
      invariant buffer.Length == |job.input| && fresh(buffer)
      invariant IsStamped(buffer[..], job)
      invariant nonce == NthNonce(worker, stride, tries)
      invariant forall k :: 0 <= k < tries ==> !Solves(h, job, NthNonce(worker, stride, k))
      invariant found ==>
        && left > 0 && Solves(h, job, nonce)
        && input == WithNonce(job.input, job.offset, nonce) && hash == h(job.seedHash, input)
      decreases left, !found
    {
      StampedAgain(buffer[..], job, nonce);
      StoreNonce(buffer, job.offset, nonce);
      var current := h(job.seedHash, buffer[..]);
      var passes := PowHelper.PassesTarget(current, job.target);
      if passes {
        found, input, hash := true, buffer[..], current;
        NonceRoundTrip(job.input, job.offset, nonce, nonce);
      } else {
        NonceStep(worker, stride, tries);
        nonce := (nonce + stride) % TWO_32;
        tries := tries + 1;
        left := left - 1;
      }
    }
    if found {
      NonceRoundTrip(job.input, job.offset, nonce, nonce);
    }
  }
}
