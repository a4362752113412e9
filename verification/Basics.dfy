/** Vocabulary shared by every module: bytes, machine integers, error results, truncated division. */
module Basics {

  type Byte = b: int | 0 <= b < 256
  type Bytes = seq<Byte>
  type Uint32 = n: int | 0 <= n < TWO_32
  type Uint64 = n: int | 0 <= n < TWO_64

  const TWO_32: nat := 0x1_0000_0000
  const TWO_64: nat := 0x1_0000_0000_0000_0000
  const TWO_256: nat :=
    0x1_0000000000000000_0000000000000000_0000000000000000_0000000000000000

  /** A proof-of-work hash function of a 32-byte seed and an input. */
  type HashFn = (Bytes, Bytes) -> Bytes

  datatype Option<+T> = None | Some(value: T)

  datatype Error = InvalidArgument | DivisionByZero

  datatype Result<+T> = Ok(value: T) | Err(error: Error)

  /** The integer division of C++: the quotient is truncated toward zero. */
  function TruncDiv(a: int, b: int): (q: int)
    requires b != 0
    ensures a >= 0 && b > 0 ==> q == a / b
    ensures a < 0 && b > 0 ==> q == -(-a / b)
  {
    if (a < 0) == (b < 0) then Abs(a) / Abs(b) else -(Abs(a) / Abs(b))
  }

  function Abs(x: int): nat {
    if x < 0 then -x else x
  }

  function Min(a: int, b: int): int {
    if a <= b then a else b
  }

  function Max(a: int, b: int): int {
    if a >= b then a else b
  }

  /** The number of times a condition holds. */
  function One(condition: bool): nat {
    if condition then 1 else 0
  }

  lemma MulOrder(a: int, b: int, p: nat)
    requires a <= b
    ensures a * p <= b * p
  {
  }

  /** The prefix of a sequence with one more element is that prefix plus the element. */
  lemma TakeOneMore<T>(s: seq<T>, i: nat)
    requires i < |s|
    ensures s[..i + 1] == s[..i] + [s[i]]
  {
  }
}
