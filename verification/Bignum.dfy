/** The 32-byte codecs of src/misc/bignum.cpp. */
module Bignum {
  import opened Basics

  const WIDTH: nat := 32

  /** The number a byte string denotes, most significant byte first. */
  function BigEndian(s: Bytes): nat {
    if s == [] then 0 else BigEndian(s[..|s| - 1]) * 256 + s[|s| - 1]
  }

  function Reversed(s: Bytes): (r: Bytes)
    ensures |r| == |s|
    ensures forall k :: 0 <= k < |s| ==> r[k] == s[|s| - 1 - k]
  {
    seq(|s|, i requires 0 <= i < |s| => s[|s| - 1 - i])
  }

  /** The number a byte string denotes, least significant byte first. */
  function LittleEndian(s: Bytes): nat {
    BigEndian(Reversed(s))
  }

  /** The first byte is the low one. */
  lemma LittleEndianHead(s: Bytes)
    requires s != []
    ensures LittleEndian(s) == s[0] + 256 * LittleEndian(s[1..])
  {
    assert Reversed(s)[..|s| - 1] == Reversed(s[1..]);
  }

  /** 256 to the power n. */
  function Pow256(n: nat): (p: nat)
    ensures p > 0
  {
    if n == 0 then 1 else 256 * Pow256(n - 1)
  }

  lemma Pow256Width()
    ensures Pow256(WIDTH) == TWO_256
  {
    assert Pow256(8) == TWO_64;
    assert Pow256(16) == TWO_64 * TWO_64;
    assert Pow256(24) == TWO_64 * TWO_64 * TWO_64;
  }

  lemma {:induction false} BigEndianBound(s: Bytes)
    ensures BigEndian(s) < Pow256(|s|)
  {
    if s != [] {
      BigEndianBound(s[..|s| - 1]);
    }
  }

  /** Strings of one length denote different numbers unless they are equal. */
  lemma {:induction false} BigEndianInjective(a: Bytes, b: Bytes)
    requires |a| == |b|
    requires BigEndian(a) == BigEndian(b)
    ensures a == b
  {
    if a != [] {
      var n := |a| - 1;
      assert BigEndian(a[..n]) == BigEndian(b[..n]) && a[n] == b[n];
      BigEndianInjective(a[..n], b[..n]);
      assert a == a[..n] + [a[n]] && b == b[..n] + [b[n]];
    }
  }

  /** The most significant byte carries the highest power of 256. */
  lemma {:induction false} BigEndianHead(s: Bytes)
    requires s != []
    ensures BigEndian(s) == s[0] * Pow256(|s| - 1) + BigEndian(s[1..])
  {
    if |s| > 1 {
      var n := |s| - 1;
      BigEndianHead(s[..n]);
      assert s[..n][1..] == s[1..][..n - 1];
    }
  }

  lemma LeadDecides(x: nat, y: nat, p: nat, low: nat)
    requires x < y && low < p
    ensures x * p + low < y * p
  {
    MulOrder(x + 1, y, p);
  }

  /** The first differing byte decides the order of two numbers. */
  lemma {:induction false} FirstDifferenceDecides(a: Bytes, b: Bytes, i: nat)
    requires |a| == |b| && i < |a|
    requires a[..i] == b[..i] && a[i] < b[i]
    ensures BigEndian(a) < BigEndian(b)
    decreases |a|
  {
    BigEndianHead(a);
    BigEndianHead(b);
    if i == 0 {
      BigEndianBound(a[1..]);
      LeadDecides(a[0], b[0], Pow256(|a| - 1), BigEndian(a[1..]));
    } else {
      assert a[0] == a[..i][0] && b[0] == b[..i][0];
      assert a[1..][..i - 1] == a[..i][1..] && b[1..][..i - 1] == b[..i][1..];
      FirstDifferenceDecides(a[1..], b[1..], i - 1);
    }
  }

  /** The encoding of a number in n bytes, most significant first; higher bits are dropped. */
  function Encode(v: nat, n: nat): (s: Bytes)
    ensures |s| == n
  {
    if n == 0 then [] else Encode(v / 256, n - 1) + [v % 256]
  }

  /** Encoding then decoding keeps the value below 256^n, and nothing else. */
  lemma {:induction false} EncodeValue(v: nat, n: nat)
    ensures BigEndian(Encode(v, n)) == v % Pow256(n)
  {
    if n > 0 {
      var p := Pow256(n - 1);
      EncodeValue(v / 256, n - 1);
      var s := Encode(v, n);
      assert s[..n - 1] == Encode(v / 256, n - 1);
      ModSplit(v, p);
    }
  }

  lemma ModSplit(v: nat, p: nat)
    requires p > 0
    ensures v % (256 * p) == (v / 256) % p * 256 + v % 256
  {
    var q, r := v / 256 / p, (v / 256) % p;
    assert v == 256 * (q * p + r) + v % 256;
    var low := r * 256 + v % 256;
    assert v == (256 * p) * q + low by {
      assert 256 * (q * p) == (256 * p) * q;
    }
    assert 0 <= low < 256 * p;
    RemainderUnique(v, 256 * p, q, low);
  }

  lemma RemainderUnique(v: int, m: nat, q: int, r: int)
    requires m > 0 && v == m * q + r && 0 <= r < m
    ensures v % m == r && v / m == q
  {
    var d := v / m - q;
    assert m * d == r - v % m by {
      assert v == m * (v / m) + v % m;
      assert m * (v / m) - m * q == m * d;
    }
    assert d >= 1 ==> m * d >= m;
    assert d <= -1 ==> m * d <= 0 - m;
  }

  /** The codecs of any width are mutual inverses. */
  lemma CodecsOfWidth(v: nat, s: Bytes, n: nat)
    requires v < Pow256(n)
    requires |s| == n
    ensures BigEndian(Encode(v, n)) == v
    ensures BigEndian(s) < Pow256(n) && Encode(BigEndian(s), n) == s
  {
    EncodeValue(v, n);
    BigEndianBound(s);
    EncodeValue(BigEndian(s), n);
    BigEndianInjective(Encode(BigEndian(s), n), s);
  }

  /** The two codecs are mutual inverses on 32-byte strings and 256-bit numbers. */
  lemma CodecsAreInverse(v: nat, s: Bytes)
    requires v < TWO_256
    requires |s| == WIDTH
    ensures BigEndian(Encode(v, WIDTH)) == v
    ensures BigEndian(s) < TWO_256 && Encode(BigEndian(s), WIDTH) == s
  {
    Pow256Width();
    CodecsOfWidth(v, s, |s|);
  }

  /** Decodes a vector: the accumulator is shifted and added to modulo 2^256, as uint256_t does. */
  method FromByteVector(vec: Bytes) returns (r: Result<nat>)
    ensures |vec| != WIDTH ==> r == Err(InvalidArgument)
    ensures |vec| == WIDTH ==> r.Ok? && r.value < TWO_256 && r.value == BigEndian(vec)
  {
    if |vec| != WIDTH {
      return Err(InvalidArgument);
    }
    Pow256Width();
    var tmp := 0;
    for i := 0 to WIDTH
      invariant tmp == BigEndian(vec[..i])
    {
      TakeOneMore(vec, i);
      BigEndianBound(vec[..i + 1]);
      PowGrows(i + 1, WIDTH);
      assert vec[..i + 1][..i] == vec[..i];
      tmp := tmp * 256 % TWO_256;
      tmp := (tmp + vec[i]) % TWO_256;
    }
    assert vec[..WIDTH] == vec;
    BigEndianBound(vec);
    return Ok(tmp);
  }

  lemma {:induction false} PowGrows(m: nat, n: nat)
    requires m <= n
    ensures Pow256(m) <= Pow256(n)
    decreases n
  {
    if m < n {
      PowGrows(m, n - 1);
    }
  }

  /** Encodes a number: the low byte is written at 31 - i and the value shifted right. */
  method ToByteVector(val0: nat) returns (vec: Bytes)
    requires val0 < TWO_256
    ensures |vec| == WIDTH && BigEndian(vec) == val0
    ensures vec == Encode(val0, WIDTH)
  {
    var val := val0;
    var tmp := new Byte[WIDTH](_ => 0);
    for i := 0 to WIDTH
      invariant Encode(val0, WIDTH) == Encode(val, WIDTH - i) + tmp[WIDTH - i..]
    {
      ghost var before := tmp[WIDTH - i..];
      ghost var lead := Encode(val / 256, WIDTH - i - 1);
      tmp[WIDTH - 1 - i] := val % 256;
      assert tmp[WIDTH - i - 1..] == [val % 256] + before;
      assert Encode(val, WIDTH - i) == lead + [val % 256];
      assert (lead + [val % 256]) + before == lead + ([val % 256] + before);
      val := val / 256;
    }
    vec := tmp[..];
    assert Encode(val, 0) + tmp[0..] == vec;
    CodecsAreInverse(val0, vec);
  }
}
