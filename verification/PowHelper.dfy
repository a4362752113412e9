/** Difficulty adjustment, the 256-bit target and the acceptance test of src/pow/powhelper.cpp. */
module PowHelper {
  import opened Basics
  import opened Bignum

  datatype Params = Params(kp: int, setPoint: nat, adjLower: int, adjUpper: int, quantization: int)

  const DEFAULT_PARAMS := Params(100, 60, -1000, 1000, 1024)
  const LOWEST: nat := 2
  const HIGHEST: nat := TWO_256 - 1

  /** A conversion from floating point to an integer type drops the fraction. */
  function TruncReal(x: real): int {
    if x < 0.0 then -(-x).Floor else x.Floor
  }

  /** The controller's raw output; a zero set point has no defined conversion to an integer. */
  function RawAdjustment(p: Params, measurement: nat): int
    requires p.setPoint > 0
  {
    TruncReal(Expression(p, measurement))
  }

  function Expression(p: Params, measurement: nat): real
    requires p.setPoint > 0
  {
    p.kp as real - p.kp as real * measurement as real / p.setPoint as real
  }

  /** The upper bound is applied first, so the lower bound wins when the two cross. */
  function Adjustment(p: Params, measurement: nat): int
    requires p.setPoint > 0
  {
    Max(Min(RawAdjustment(p, measurement), p.adjUpper), p.adjLower)
  }

  /** The scaled step; a non-zero adjustment always moves the difficulty by at least one. */
  function Delta(parent: nat, adjustment: int, quantization: int): int
    requires quantization != 0
  {
    var delta := TruncDiv(parent * adjustment, quantization);
    if delta == 0 && adjustment != 0 then (if adjustment < 0 then -1 else 1) else delta
  }

  function Next(p: Params, measurement: nat, parent: nat): (d: nat)
    requires p.setPoint > 0 && p.quantization != 0
    ensures LOWEST <= d <= HIGHEST
  {
    Min(Max(parent + Delta(parent, Adjustment(p, measurement), p.quantization), LOWEST), HIGHEST)
  }

  /** The difficulty after a run of measured blocks. */
  function Chain(p: Params, start: nat, measurements: seq<nat>): nat
    requires p.setPoint > 0 && p.quantization != 0
  {
    var n := |measurements|;
    if n == 0 then start else Next(p, measurements[n - 1], Chain(p, start, measurements[..n - 1]))
  }

  /** The largest little-endian hash value that is accepted at a difficulty. */
  function TargetValue(difficulty: nat): nat {
    if difficulty == 0 then 0 else HIGHEST / difficulty
  }

  // ---------------------------------------------------------------------------------------------
  // The operations
  // ---------------------------------------------------------------------------------------------

  method GetDifficulty(p: Params, measurement: nat, parent: Bytes) returns (r: Result<Bytes>)
    requires p.setPoint > 0
    ensures |parent| != WIDTH ==> r == Err(InvalidArgument)
    ensures |parent| == WIDTH && p.quantization == 0 ==> r == Err(DivisionByZero)
    ensures |parent| == WIDTH && p.quantization != 0 ==>
      r.Ok? && |r.value| == WIDTH && BigEndian(r.value) == Next(p, measurement, BigEndian(parent))
  {
    var adjustment := RawAdjustment(p, measurement);
    if adjustment > p.adjUpper {
      adjustment := p.adjUpper;
    }
    if adjustment < p.adjLower {
      adjustment := p.adjLower;
    }
    var decoded := FromByteVector(parent);
    if decoded.Err? {
      return Err(decoded.error);
    }
    if p.quantization == 0 {
      return Err(DivisionByZero);
    }
    var delta := TruncDiv(decoded.value * adjustment, p.quantization);
    if delta == 0 && adjustment != 0 {
      delta := if adjustment < 0 then -1 else 1;
    }
    var difficulty := Max(decoded.value + delta, LOWEST);
    difficulty := Min(difficulty, HIGHEST);
    var encoded := ToByteVector(difficulty);
    return Ok(encoded);
  }

  /** The reciprocal of a difficulty, encoded and then reversed in place to least significant first. */
  method GetTarget(difficulty: Bytes) returns (r: Result<Bytes>)
    ensures |difficulty| != WIDTH ==> r == Err(InvalidArgument)
    ensures |difficulty| == WIDTH ==>
      r.Ok? && |r.value| == WIDTH && LittleEndian(r.value) == TargetValue(BigEndian(difficulty))
    ensures |difficulty| == WIDTH && BigEndian(difficulty) == 0 ==> r == Ok(seq(WIDTH, _ => 0))
  {
    var decoded := FromByteVector(difficulty);
    if decoded.Err? {
      return Err(decoded.error);
    }
    if decoded.value == 0 {
      var boundary := seq(WIDTH, _ => 0);
      ZerosDenoteZero(Reversed(boundary));
      return Ok(boundary);
    }
    QuotientAtMost(HIGHEST, decoded.value);
    var encoded := ToByteVector(HIGHEST / decoded.value);
    var bytes := new Byte[WIDTH](i requires 0 <= i < WIDTH => encoded[i]);
    assert bytes[..] == encoded;
    for i := 0 to WIDTH / 2
      invariant forall k :: 0 <= k < i || WIDTH - i <= k < WIDTH ==> bytes[k] == encoded[WIDTH - 1 - k]
      invariant forall k :: i <= k < WIDTH - i ==> bytes[k] == encoded[k]
    {
      bytes[i], bytes[WIDTH - 1 - i] := bytes[WIDTH - 1 - i], bytes[i];
    }
    assert Reversed(bytes[..]) == encoded;
    return Ok(bytes[..]);
  }

  /** Compares from the most significant byte of two little-endian strings down. */
  method PassesTarget(hash: Bytes, target: Bytes) returns (passes: bool)
    ensures passes <==> |hash| == WIDTH && |target| == WIDTH && LittleEndian(hash) <= LittleEndian(target)
  {
    if |hash| != WIDTH || |target| != WIDTH {
      return false;
    }
    ghost var hs, ts := Reversed(hash), Reversed(target);
    for i := 0 to WIDTH
      invariant hs[..i] == ts[..i]
    {
      var h, t := hash[WIDTH - 1 - i], target[WIDTH - 1 - i];
      if h > t {
        FirstDifferenceDecides(ts, hs, i);
        return false;
      }
      if h < t {
        FirstDifferenceDecides(hs, ts, i);
        return true;
      }
      TakeOneMore(hs, i);
      TakeOneMore(ts, i);
    }
    assert hs[..WIDTH] == hs && ts[..WIDTH] == ts;
    return true;
  }

  /** Whether a hash is accepted for the child of a block with this difficulty and measurement. */
  predicate Accepted(p: Params, measurement: nat, parent: Bytes, hash: Bytes)
    requires p.setPoint > 0 && p.quantization != 0
  {
    |hash| == WIDTH && LittleEndian(hash) * Next(p, measurement, BigEndian(parent)) < TWO_256
  }

  /** Measurement to verdict: the three operations composed. */
  method AcceptedAfter(p: Params, measurement: nat, parent: Bytes, hash: Bytes) returns (r: Result<bool>)
    requires p.setPoint > 0
    ensures |parent| != WIDTH ==> r == Err(InvalidArgument)
    ensures |parent| == WIDTH && p.quantization == 0 ==> r == Err(DivisionByZero)
    ensures |parent| == WIDTH && p.quantization != 0 ==> r == Ok(Accepted(p, measurement, parent, hash))
  {
    var difficulty := GetDifficulty(p, measurement, parent);
    if difficulty.Err? {
      return Err(difficulty.error);
    }
    var target := GetTarget(difficulty.value);
    var passes := PassesTarget(hash, target.value);
    TargetIsExact(LittleEndian(hash), BigEndian(difficulty.value));
    return Ok(passes);
  }

  // ---------------------------------------------------------------------------------------------
  // Acceptance
  // ---------------------------------------------------------------------------------------------

  lemma {:induction false} ZerosDenoteZero(s: Bytes)
    requires forall k :: 0 <= k < |s| ==> s[k] == 0
    ensures BigEndian(s) == 0
  {
    if s != [] {
      ZerosDenoteZero(s[..|s| - 1]);
    }
  }

  lemma QuotientAtMost(a: nat, b: nat)
    requires b > 0
    ensures 0 <= a / b <= a
    ensures a / b * b <= a < (a / b + 1) * b
  {
    var q := a / b;
    assert a == q * b + a % b;
    assert (q + 1) * b == q * b + b;
    assert q >= 0;
    MulOrder(1, b, q);
  }

  /** Passing the rounded target is exactly value times difficulty staying below 2^256. */
  lemma TargetIsExact(value: nat, difficulty: nat)
    requires difficulty > 0
    ensures value <= TargetValue(difficulty) <==> value * difficulty < TWO_256
  {
    var t := TargetValue(difficulty);
    QuotientAtMost(HIGHEST, difficulty);
    if value <= t {
      MulOrder(value, t, difficulty);
    } else {
      MulOrder(t + 1, value, difficulty);
    }
  }

  /** A slower block never shrinks the set of accepted hashes: every byte string accepted after a
      measurement is accepted after each slower one. */
  lemma SlowerBlockAcceptsMore(p: Params, m: nat, slower: nat, parent: Bytes, hash: Bytes)
    requires p.setPoint > 0 && p.quantization > 0 && p.kp >= 0
    requires m <= slower
    ensures Accepted(p, m, parent, hash) ==> Accepted(p, slower, parent, hash)
    ensures TargetValue(Next(p, m, BigEndian(parent))) <= TargetValue(Next(p, slower, BigEndian(parent)))
  {
    var d, d' := Next(p, m, BigEndian(parent)), Next(p, slower, BigEndian(parent));
    NextAntitone(p, m, slower, BigEndian(parent));
    MulOrder(d', d, LittleEndian(hash));
    var t := TargetValue(d);
    TargetIsExact(t, d);
    MulOrder(d', d, t);
    TargetIsExact(t, d');
  }

  // ---------------------------------------------------------------------------------------------
  // Comparison of chains
  // ---------------------------------------------------------------------------------------------

  /** The real-valued expression is the truncated quotient kp * (setPoint - m) / setPoint. */
  lemma RawIsTruncDiv(p: Params, m: nat)
    requires p.setPoint > 0
    ensures RawAdjustment(p, m) == TruncDiv(p.kp * (p.setPoint - m), p.setPoint)
  {
    ScaledExpression(p.kp, m, p.setPoint);
    TruncOfQuotient(Expression(p, m), p.kp * (p.setPoint - m), p.setPoint);
  }

  lemma TruncOfQuotient(x: real, a: int, b: nat)
    requires b > 0 && x * b as real == a as real
    ensures TruncReal(x) == TruncDiv(a, b)
  {
    NegatedProduct(x, b as real);
    FloorOfQuotient(x, a, b);
    FloorOfQuotient(-x, -a, b);
  }

  lemma NegatedProduct(x: real, b: real)
    ensures -x * b == -(x * b)
  {
  }

  lemma ScaledExpression(k: int, m: nat, d: nat)
    requires d > 0
    ensures (k as real - k as real * m as real / d as real) * d as real == (k * (d - m)) as real
  {
    var kr, mr, dr := k as real, m as real, d as real;
    var t := kr * mr / dr;
    CancelReal(kr * mr, dr);
    assert (kr - t) * dr == kr * dr - t * dr;
    ProductAsReal(k, d);
    ProductAsReal(k, m);
    assert k * (d - m) == k * d - k * m;
  }

  lemma CancelReal(x: real, d: real)
    requires d != 0.0
    ensures x / d * d == x
  {
  }

  lemma ProductAsReal(a: int, b: int)
    ensures (a * b) as real == a as real * b as real
  {
  }

  lemma FloorOfQuotient(x: real, a: int, b: nat)
    requires b > 0 && x * b as real == a as real
    ensures x.Floor == a / b
    ensures x < 0.0 <==> a < 0
  {
    var q, r := a / b, a % b;
    assert a == q * b + r;
    var y := x - q as real;
    assert y * b as real == r as real by {
      assert (q * b) as real == q as real * b as real;
    }
    RealQuotientBelowOne(y, b as real, r as real);
    assert x < 0.0 ==> x * b as real < 0.0;
    assert x >= 0.0 ==> x * b as real >= 0.0;
  }

  lemma RealQuotientBelowOne(y: real, b: real, r: real)
    requires b > 0.0 && y * b == r && 0.0 <= r < b
    ensures 0.0 <= y < 1.0
  {
    assert y < 0.0 ==> y * b < 0.0;
    assert y >= 1.0 ==> y * b >= b;
  }

  lemma TruncDivMonotone(x: int, y: int, q: nat)
    requires x <= y && q > 0
    ensures TruncDiv(x, q) <= TruncDiv(y, q)
  {
    DivMonotone(Abs(x), Abs(y), q);
    DivMonotone(Abs(y), Abs(x), q);
  }

  lemma DivMonotone(a: nat, b: nat, q: nat)
    requires q > 0
    ensures a <= b ==> a / q <= b / q
    ensures a / q >= 0
  {
    if a <= b && a / q > b / q {
      QuotientAtMost(a, q);
      QuotientAtMost(b, q);
      MulOrder(b / q + 1, a / q, q);
      assert false;
    }
  }

  lemma AdjustmentAntitone(p: Params, m: nat, slower: nat)
    requires p.setPoint > 0 && p.kp >= 0 && m <= slower
    ensures Adjustment(p, slower) <= Adjustment(p, m)
  {
    RawIsTruncDiv(p, m);
    RawIsTruncDiv(p, slower);
    MulOrder(p.setPoint - slower, p.setPoint - m, p.kp);
    TruncDivMonotone(p.kp * (p.setPoint - slower), p.kp * (p.setPoint - m), p.setPoint);
  }

  lemma DeltaMonotone(parent: nat, a: int, b: int, q: nat)
    requires q > 0 && a <= b
    ensures Delta(parent, a, q) <= Delta(parent, b, q)
  {
    MulOrder(a, b, parent);
    TruncDivMonotone(parent * a, parent * b, q);
    DeltaSign(parent, a, q);
    DeltaSign(parent, b, q);
  }

  lemma DeltaSign(parent: nat, a: int, q: nat)
    requires q > 0
    ensures a > 0 ==> Delta(parent, a, q) == Max(1, parent * a / q)
    ensures a < 0 ==> Delta(parent, a, q) == -Max(1, parent * -a / q)
    ensures a == 0 ==> Delta(parent, a, q) == 0
    ensures a > 0 ==> parent * a >= 0
    ensures a < 0 ==> parent * a <= 0
  {
    MulSign(parent, Abs(a));
    assert parent * -a == -(parent * a);
    DivMonotone(0, parent * Abs(a), q);
  }

  lemma MulSign(a: nat, b: nat)
    ensures a * b >= 0
  {
  }

  /** Difficulty falls, or stays, when the measured block was slower. */
  lemma NextAntitone(p: Params, m: nat, slower: nat, parent: nat)
    requires p.setPoint > 0 && p.quantization > 0 && p.kp >= 0
    requires m <= slower
    ensures Next(p, slower, parent) <= Next(p, m, parent)
  {
    AdjustmentAntitone(p, m, slower);
    DeltaMonotone(parent, Adjustment(p, slower), Adjustment(p, m), p.quantization);
  }

  /** Difficulty keeps the order of the parents, whatever the clamps are. */
  lemma NextMonotone(p: Params, m: nat, parent: nat, harder: nat)
    requires p.setPoint > 0 && p.quantization > 0
    requires parent <= harder
    ensures Next(p, m, parent) <= Next(p, m, harder)
  {
    var a, q := Adjustment(p, m), p.quantization;
    DeltaSign(parent, a, q);
    DeltaSign(harder, a, q);
    if a > 0 {
      MulOrder(parent, harder, a);
      DivMonotone(parent * a, harder * a, q);
    } else if a < 0 && -a <= q {
      StepIsContraction(parent, harder, -a, q);
    } else if a < 0 {
      StepSwallowsParent(parent, -a, q);
      StepSwallowsParent(harder, -a, q);
    }
  }

  lemma StepIsContraction(x: nat, y: nat, b: nat, q: nat)
    requires x <= y && 0 < b <= q
    ensures y * b / q - x * b / q <= y - x
  {
    var d := y - x;
    MulOrder(b, q, d);
    assert y * b <= x * b + d * q;
    MulSign(x, b);
    MulSign(d, q);
    MulSign(y, b);
    DivMonotone(y * b, x * b + d * q, q);
    DivAddMultiple(x * b, d, q);
  }

  lemma DivAddMultiple(a: nat, d: nat, q: nat)
    requires q > 0
    ensures (a + d * q) / q == a / q + d
  {
    assert a + d * q == q * (a / q + d) + a % q;
    RemainderUnique(a + d * q, q, a / q + d, a % q);
  }

  lemma StepSwallowsParent(x: nat, b: nat, q: nat)
    requires b > q > 0
    ensures x - Max(1, x * b / q) <= 0
  {
    MulOrder(q, b, x);
    MulSign(x, q);
    MulSign(x, b);
    DivMonotone(x * q, x * b, q);
    DivAddMultiple(0, x, q);
  }

  /** Two chains with ordered starts and pointwise slower blocks stay ordered at every block. */
  lemma {:induction false} ChainsStayOrdered(p: Params, easier: nat, harder: nat,
                                             slow: seq<nat>, fast: seq<nat>, k: nat)
    requires p.setPoint > 0 && p.quantization > 0 && p.kp >= 0
    requires easier <= harder
    requires k <= |slow| == |fast|
    requires forall i :: 0 <= i < |slow| ==> slow[i] >= fast[i]
    ensures Chain(p, easier, slow[..k]) <= Chain(p, harder, fast[..k])
    decreases k
  {
    if k > 0 {
      ChainsStayOrdered(p, easier, harder, slow, fast, k - 1);
      assert slow[..k][..k - 1] == slow[..k - 1] && fast[..k][..k - 1] == fast[..k - 1];
      var x, y := Chain(p, easier, slow[..k - 1]), Chain(p, harder, fast[..k - 1]);
      NextAntitone(p, fast[k - 1], slow[k - 1], x);
      NextMonotone(p, fast[k - 1], x, y);
    }
  }

  // ---------------------------------------------------------------------------------------------
  // Exactly when the order of parents is kept
  // ---------------------------------------------------------------------------------------------

  ghost predicate OrderKept(p: Params, m: nat)
    requires p.setPoint > 0 && p.quantization != 0
  {
    forall x: nat, y: nat :: x <= y <= HIGHEST ==> Next(p, m, x) <= Next(p, m, y)
  }

  /** The scaled step for a negative quantization turns the sign of the adjustment, but the bump of an
      empty step does not. */
  lemma NegativeDelta(parent: nat, a: int, q: int)
    requires q < 0
    ensures parent * Abs(a) >= 0
    ensures var scaled := parent * Abs(a) / -q;
            && scaled >= 0
            && (a > 0 ==> Delta(parent, a, q) == if scaled == 0 then 1 else -scaled)
            && (a < 0 ==> Delta(parent, a, q) == if scaled == 0 then -1 else scaled)
            && (a == 0 ==> Delta(parent, a, q) == 0)
  {
    MulSign(parent, Abs(a));
    assert parent * -a == -(parent * a);
    DivMonotone(0, parent * Abs(a), -q);
  }

  /** The clamped difficulty after a positive adjustment divided by -q. */
  function Lowered(x: nat, a: nat, q: nat): int
    requires q > 0
  {
    Max(if x * a / q == 0 then x + 1 else x - x * a / q, LOWEST)
  }

  lemma LoweredInOrder(x: nat, y: nat, a: nat, q: nat)
    requires x <= y && 0 < q <= 2 * a
    ensures Lowered(x, a, q) <= Lowered(y, a, q)
  {
    MulSign(x, a);
    MulSign(y, a);
    MulOrder(x, y, a);
    DivMonotone(x * a, y * a, q);
    if x * a / q == 0 {
      SmallWhenBumped(x, a, q);
    } else if a <= q {
      StepIsContraction(x, y, a, q);
    } else {
      StepSwallowsParent(x, a, q);
    }
  }

  lemma RaisedInOrder(x: nat, y: nat, a: int, q: int)
    requires x <= y && a <= 0 && q < 0
    ensures x + Delta(x, a, q) <= y + Delta(y, a, q)
  {
    NegativeDelta(x, a, q);
    NegativeDelta(y, a, q);
    MulOrder(x, y, Abs(a));
    DivMonotone(x * Abs(a), y * Abs(a), -q);
  }

  lemma NegativeKeepsOrder(p: Params, m: nat, x: nat, y: nat)
    requires p.setPoint > 0 && p.quantization < 0 && x <= y
    requires Adjustment(p, m) <= 0 || 2 * Adjustment(p, m) >= -p.quantization
    ensures Next(p, m, x) <= Next(p, m, y)
  {
    var a, q := Adjustment(p, m), p.quantization;
    if a > 0 {
      NegativeDelta(x, a, q);
      NegativeDelta(y, a, q);
      LoweredInOrder(x, y, a, -q);
    } else {
      RaisedInOrder(x, y, a, q);
    }
  }

  /** Where the scaled step is empty the parent is below 2. */
  lemma SmallWhenBumped(x: nat, a: nat, q: nat)
    requires q > 0 && 2 * a >= q && x * a / q == 0
    ensures x <= 1
  {
    MulSign(x, a);
    QuotientAtMost(x * a, q);
    if x >= 2 {
      MulOrder(2, x, a);
    }
  }

  /** The first parent whose scaled step is not empty falls below its predecessor, which is bumped up. */
  lemma NegativeBreaksOrder(p: Params, m: nat) returns (x: nat)
    requires p.setPoint > 0 && -0x8000_0000_0000_0000 <= p.quantization < 0
    requires 0 < 2 * Adjustment(p, m) < -p.quantization
    ensures x + 1 <= HIGHEST && Next(p, m, x) == x + 1 && Next(p, m, x + 1) == x
  {
    var a, q := Adjustment(p, m), -p.quantization;
    x := (q - 1) / a;
    QuotientAtMost(q - 1, a);
    MulOrder(1, a, x);
    assert x * a <= q - 1 < (x + 1) * a == x * a + a;
    NegativeDelta(x, a, -q);
    NegativeDelta(x + 1, a, -q);
    QuotientIs(x * a, q, 0);
    QuotientIs((x + 1) * a, q, 1);
    assert x >= 2 by {
      if x <= 1 {
        MulOrder(x, 1, a);
      }
    }
  }

  lemma QuotientIs(n: nat, q: nat, k: nat)
    requires q > 0 && k * q <= n < (k + 1) * q
    ensures n / q == k
  {
    RemainderUnique(n, q, k, n - k * q);
  }

  /** One measurement keeps the order of all 256-bit parents if and only if the quantization is positive, or
      the adjustment is not, or the adjustment is at least half the size of the quantization. */
  lemma OrderKeptIff(p: Params, m: nat)
    requires p.setPoint > 0 && p.quantization != 0 && p.quantization >= -0x8000_0000_0000_0000
    ensures OrderKept(p, m) <==>
      p.quantization > 0 || Adjustment(p, m) <= 0 || 2 * Adjustment(p, m) >= -p.quantization
  {
    if p.quantization > 0 {
      forall x: nat, y: nat | x <= y <= HIGHEST ensures Next(p, m, x) <= Next(p, m, y) {
        NextMonotone(p, m, x, y);
      }
    } else if Adjustment(p, m) <= 0 || 2 * Adjustment(p, m) >= -p.quantization {
      forall x: nat, y: nat | x <= y <= HIGHEST ensures Next(p, m, x) <= Next(p, m, y) {
        NegativeKeepsOrder(p, m, x, y);
      }
    } else {
      var x := NegativeBreaksOrder(p, m);
      assert Next(p, m, x) > Next(p, m, x + 1);
    }
  }

  // ---------------------------------------------------------------------------------------------
  // Descent and ascent
  // ---------------------------------------------------------------------------------------------

  /** The controller's output: the quotient kp * (setPoint - m) / setPoint without its fraction, held between
      the bounds; the lower one wins when they cross. */
  lemma AdjustmentByCases(p: Params, m: nat)
    requires p.setPoint > 0
    ensures var k := p.kp * (p.setPoint - m);
            var raw := if k >= 0 then k / p.setPoint else -(-k / p.setPoint);
            Adjustment(p, m) ==
              if raw < p.adjLower || p.adjUpper < p.adjLower then p.adjLower
              else if p.adjUpper < raw then p.adjUpper
              else raw
  {
    RawIsTruncDiv(p, m);
  }

  /** The step for a positive quantization, to the unit: a non-zero adjustment moves the difficulty its own way
      by the scaled step, or by one when that is empty, and stops at 2 and at 2^256 - 1. */
  lemma ExactStep(p: Params, m: nat, parent: nat)
    requires p.setPoint > 0 && p.quantization > 0
    ensures var a := Adjustment(p, m);
            var scaled := Abs(a) * parent / p.quantization;
            var size := if scaled == 0 then 1 else scaled;
            var moved := if a > 0 then parent + size else if a < 0 then parent - size else parent;
            Next(p, m, parent) == if moved < LOWEST then LOWEST else if moved > HIGHEST then HIGHEST else moved
  {
    var a := Adjustment(p, m);
    DeltaSign(parent, a, p.quantization);
    assert parent * Abs(a) == Abs(a) * parent;
  }

  /** The step for a negative quantization: a scaled step goes against the adjustment, an empty one with it. */
  lemma ExactStepTurned(p: Params, m: nat, parent: nat)
    requires p.setPoint > 0 && p.quantization < 0
    ensures var a := Adjustment(p, m);
            var scaled := Abs(a) * parent / -p.quantization;
            var moved :=
              if a == 0 then parent
              else if scaled == 0 then (if a > 0 then parent + 1 else parent - 1)
              else if a > 0 then parent - scaled
              else parent + scaled;
            Next(p, m, parent) == if moved < LOWEST then LOWEST else if moved > HIGHEST then HIGHEST else moved
  {
    var a := Adjustment(p, m);
    NegativeDelta(parent, a, p.quantization);
    assert parent * Abs(a) == Abs(a) * parent;
  }

  /** One step: its direction is the sign of the adjustment and its size is bounded. */
  lemma OneStep(p: Params, m: nat, parent: nat)
    requires p.setPoint > 0 && p.quantization > 0
    requires LOWEST <= parent <= HIGHEST
    ensures Adjustment(p, m) < 0 ==> Next(p, m, parent) <= Max(LOWEST, parent - 1)
    ensures Adjustment(p, m) > 0 ==> Next(p, m, parent) >= Min(HIGHEST, parent + 1)
    ensures Adjustment(p, m) == 0 ==> Next(p, m, parent) == parent
    ensures Abs(Next(p, m, parent) - parent) <= Max(1, Abs(Adjustment(p, m)) * parent / p.quantization)
  {
    var a := Adjustment(p, m);
    DeltaSign(parent, a, p.quantization);
    assert parent * Abs(a) == Abs(a) * parent;
    ClampedMove(parent, Delta(parent, a, p.quantization));
  }

  lemma ClampedMove(parent: nat, delta: int)
    requires LOWEST <= parent <= HIGHEST
    ensures Abs(Min(Max(parent + delta, LOWEST), HIGHEST) - parent) <= Abs(delta)
  {
  }

  /** With the default parameters the sign of the adjustment is that of 60 minus the measurement. */
  lemma DefaultAdjustmentSign(m: nat)
    ensures Adjustment(DEFAULT_PARAMS, m) < 0 <==> m >= 61
    ensures Adjustment(DEFAULT_PARAMS, m) > 0 <==> m <= 59
    ensures Adjustment(DEFAULT_PARAMS, m) == 0 <==> m == 60
    ensures -1000 <= Adjustment(DEFAULT_PARAMS, m) <= 100
  {
    RawIsTruncDiv(DEFAULT_PARAMS, m);
    var a := 100 * (60 - m);
    assert a >= 0 ==> TruncDiv(a, 60) == a / 60;
    assert a < 0 ==> TruncDiv(a, 60) == -(-a / 60);
  }

  /** The step with the default parameters, in numbers: the parent times 100 * |60 - m| / 60 over 1024, up for a fast
      block and down for a slow one, where at most 1000 / 1024 of the parent and at least 1 is taken away. */
  lemma DefaultStep(m: nat, parent: nat)
    requires LOWEST <= parent <= HIGHEST && m != 60
    ensures var off := 100 * Abs(m - 60) / 60;
            var a := if m > 60 && off > 1000 then 1000 else off;
            var size := if a * parent / 1024 == 0 then 1 else a * parent / 1024;
            Next(DEFAULT_PARAMS, m, parent) ==
              if m < 60 then Min(HIGHEST, parent + size) else Max(LOWEST, parent - size)
  {
    AdjustmentByCases(DEFAULT_PARAMS, m);
    ExactStep(DEFAULT_PARAMS, m, parent);
  }

  /** With the default parameters the raw value fits a 64-bit long exactly for these measurements; beyond
      them the conversion in the source has no defined result. */
  lemma DefaultFitsLong(m: nat)
    ensures -0x8000_0000_0000_0000 <= RawAdjustment(DEFAULT_PARAMS, m) < 0x8000_0000_0000_0000 <==>
      m <= 5534023222112865545
  {
    RawIsTruncDiv(DEFAULT_PARAMS, m);
    var a := 100 * (60 - m);
    assert a >= 0 ==> TruncDiv(a, 60) == a / 60;
    assert a < 0 ==> TruncDiv(a, 60) == -(-a / 60);
  }

  /** Sixty is the only measurement that leaves every difficulty unchanged. */
  lemma SixtyIsTheFixedPoint(m: nat)
    ensures (forall d :: LOWEST <= d <= HIGHEST ==> Next(DEFAULT_PARAMS, m, d) == d) <==> m == 60
  {
    DefaultAdjustmentSign(m);
    OneStep(DEFAULT_PARAMS, m, 3);
    if m == 60 {
      forall d | LOWEST <= d <= HIGHEST
        ensures Next(DEFAULT_PARAMS, m, d) == d
      {
        OneStep(DEFAULT_PARAMS, m, d);
      }
    } else {
      assert Next(DEFAULT_PARAMS, m, 3) != 3;
    }
  }

  /** Slow blocks lower the difficulty every block until it is 2, where it stays. */
  lemma {:induction false} Descent(start: nat, ms: seq<nat>)
    requires LOWEST <= start <= HIGHEST
    requires forall i :: 0 <= i < |ms| ==> ms[i] >= 61
    ensures LOWEST <= Chain(DEFAULT_PARAMS, start, ms) <= Max(LOWEST, start - |ms|)
    ensures |ms| > 0 ==>
      var before := Chain(DEFAULT_PARAMS, start, ms[..|ms| - 1]);
      var after := Chain(DEFAULT_PARAMS, start, ms);
      if before > LOWEST then after < before else after == LOWEST
    ensures |ms| >= start - LOWEST ==> Chain(DEFAULT_PARAMS, start, ms) == LOWEST
  {
    if ms != [] {
      var n := |ms| - 1;
      Descent(start, ms[..n]);
      DefaultAdjustmentSign(ms[n]);
      OneStep(DEFAULT_PARAMS, ms[n], Chain(DEFAULT_PARAMS, start, ms[..n]));
    }
  }

  /** Fast blocks raise the difficulty every block until it is 2^256 - 1, where it stays. */
  lemma {:induction false} Ascent(start: nat, ms: seq<nat>)
    requires LOWEST <= start <= HIGHEST
    requires forall i :: 0 <= i < |ms| ==> ms[i] <= 59
    ensures Min(HIGHEST, start + |ms|) <= Chain(DEFAULT_PARAMS, start, ms) <= HIGHEST
    ensures |ms| > 0 ==>
      var before := Chain(DEFAULT_PARAMS, start, ms[..|ms| - 1]);
      var after := Chain(DEFAULT_PARAMS, start, ms);
      if before < HIGHEST then after > before else after == HIGHEST
  {
    if ms != [] {
      var n := |ms| - 1;
      Ascent(start, ms[..n]);
      DefaultAdjustmentSign(ms[n]);
      OneStep(DEFAULT_PARAMS, ms[n], Chain(DEFAULT_PARAMS, start, ms[..n]));
    }
  }
}
