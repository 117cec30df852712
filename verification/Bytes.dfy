/** Bytes, their bits, and byte strings. */
module Bytes {

  type Byte = b: int | 0 <= b < 256

  datatype Option<+T> = None | Some(value: T)

  datatype Result<+T, +E> = Ok(value: T) | Err(error: E)

  // ---------------------------------------------------------------- bits

  function Power2(n: nat): nat {
    if n == 0 then 1 else 2 * Power2(n - 1)
  }

  /** The `n` lowest bits of a number, least significant first. */
  function LowBits(x: nat, n: nat): (bits: seq<bool>)
    ensures |bits| == n
  {
    if n == 0 then [] else [x % 2 == 1] + LowBits(x / 2, n - 1)
  }

  function FromBits(bits: seq<bool>): (x: nat)
    ensures x < Power2(|bits|)
  {
    if bits == [] then 0 else (if bits[0] then 1 else 0) + 2 * FromBits(bits[1..])
  }

  lemma {:induction false} BitsOfFromBits(bits: seq<bool>)
    ensures LowBits(FromBits(bits), |bits|) == bits
  {
    if bits != [] {
      BitsOfFromBits(bits[1..]);
      assert FromBits(bits) / 2 == FromBits(bits[1..]);
    }
  }

  lemma {:induction false} FromBitsOfBits(x: nat, n: nat)
    requires x < Power2(n)
    ensures FromBits(LowBits(x, n)) == x
  {
    if n > 0 {
      FromBitsOfBits(x / 2, n - 1);
      assert LowBits(x, n)[1..] == LowBits(x / 2, n - 1);
    }
  }

  /** A byte's eight bits, least significant first. */
  function Bits(b: Byte): (bits: seq<bool>)
    ensures |bits| == 8
  {
    LowBits(b, 8)
  }

  lemma Power2Of8()
    ensures Power2(8) == 256
  {
    assert Power2(4) == 16;
  }

  function ByteOfBits(bits: seq<bool>): (b: Byte)
    requires |bits| == 8
    ensures Bits(b) == bits
  {
    Power2Of8();
    BitsOfFromBits(bits);
    FromBits(bits)
  }

  /** A byte is determined by its bits. */
  lemma SameBitsSameByte(a: Byte, b: Byte)
    requires Bits(a) == Bits(b)
    ensures a == b
  {
    Power2Of8();
    FromBitsOfBits(a, 8);
    FromBitsOfBits(b, 8);
  }

  /** Bitwise exclusive or; on one bit that is `!=`. */
  function Add(p: seq<bool>, q: seq<bool>): (s: seq<bool>)
    requires |p| == |q|
    ensures |s| == |p| && forall i :: 0 <= i < |p| ==> s[i] == (p[i] != q[i])
  {
    seq(|p|, i requires 0 <= i < |p| => p[i] != q[i])
  }

  /** Exclusive or of two bytes, Python's `^`. */
  function XorByte(a: Byte, b: Byte): (c: Byte)
    ensures Bits(c) == Add(Bits(a), Bits(b))
  {
    ByteOfBits(Add(Bits(a), Bits(b)))
  }

  lemma XorByteTwice(a: Byte, b: Byte)
    ensures XorByte(XorByte(a, b), b) == a
  {
    assert Add(Add(Bits(a), Bits(b)), Bits(b)) == Bits(a);
    SameBitsSameByte(XorByte(XorByte(a, b), b), a);
  }

  lemma XorByteZero(a: Byte, b: Byte)
    ensures XorByte(a, b) == 0 <==> a == b
  {
    ZeroBits(8);
    if XorByte(a, b) == 0 {
      assert forall i :: 0 <= i < 8 ==> Add(Bits(a), Bits(b))[i] == Bits(0)[i];
      SameBitsSameByte(a, b);
    } else if a == b {
      SameBitsSameByte(XorByte(a, b), 0);
    }
  }

  lemma ZeroBits(n: nat)
    ensures forall i :: 0 <= i < n ==> !LowBits(0, n)[i]
  {
    if n > 0 {
      ZeroBits(n - 1);
    }
  }

  // ---------------------------------------------------------------- byte strings

  /** Two bytes, most significant first. */
  function ToBigEndian2(n: nat): (bs: seq<Byte>)
    requires n < 65536
    ensures |bs| == 2 && FromBigEndian2(bs) == n
  {
    [n / 256, n % 256]
  }

  function FromBigEndian2(bs: seq<Byte>): (n: nat)
    requires |bs| == 2
    ensures n < 65536 && n / 256 == bs[0] && n % 256 == bs[1]
  {
    256 * (bs[0] as int) + bs[1] as int
  }

  function Repeat(b: Byte, n: nat): (bs: seq<Byte>)
    ensures |bs| == n && forall i :: 0 <= i < n ==> bs[i] == b
  {
    seq(n, i => b)
  }

  /** Bytewise exclusive or of two strings of one length. */
  function Xor(a: seq<Byte>, b: seq<Byte>): (c: seq<Byte>)
    requires |a| == |b|
    ensures |c| == |a| && forall i :: 0 <= i < |a| ==> c[i] == XorByte(a[i], b[i])
  {
    seq(|a|, i requires 0 <= i < |a| => XorByte(a[i], b[i]))
  }

  lemma XorTwice(a: seq<Byte>, b: seq<Byte>)
    requires |a| == |b|
    ensures Xor(Xor(a, b), b) == a
  {
    forall i | 0 <= i < |a| ensures Xor(Xor(a, b), b)[i] == a[i] {
      XorByteTwice(a[i], b[i]);
    }
  }

  /** The strings one after the other. */
  function Concat(parts: seq<seq<Byte>>): (whole: seq<Byte>)
  {
    if parts == [] then [] else parts[0] + Concat(parts[1..])
  }

  lemma DropMore<T>(s: seq<T>, i: nat, n: nat)
    requires i + n <= |s|
    ensures s[i..][n..] == s[i + n..]
  {
  }

  lemma TakeOneMore<T>(s: seq<T>, n: nat)
    requires n < |s|
    ensures s[..n + 1] == s[..n] + [s[n]]
  {
  }

  lemma ConcatOne(part: seq<Byte>)
    ensures Concat([part]) == part
  {
    var parts := [part];
    assert Concat(parts[1..]) == [];
    assert part + [] == part;
  }

  lemma {:induction false} ConcatAppend(a: seq<seq<Byte>>, b: seq<seq<Byte>>)
    ensures Concat(a + b) == Concat(a) + Concat(b)
  {
    if a == [] {
      assert a + b == b;
    } else {
      assert (a + b)[1..] == a[1..] + b;
      ConcatAppend(a[1..], b);
    }
  }
}
