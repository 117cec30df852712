/** The CRC-8/MAXIM shift loop, and the bit-serial register it stands for. */
module Crc8 {
  import opened Bytes

  const POLYNOMIAL: Byte := 0x8C

  /** One turn of the inner loop: shift right, folding the polynomial in when a one falls out. */
  function ShiftBit(crc: Byte): Byte {
    if crc % 2 == 1 then XorByte(crc / 2, POLYNOMIAL) else crc / 2
  }

  function Shift(crc: Byte, n: nat): Byte {
    if n == 0 then crc else ShiftBit(Shift(crc, n - 1))
  }

  /** The register after reading `data`, started from zero. */
  function Crc(data: seq<Byte>): Byte {
    if data == [] then 0
    else Shift(XorByte(Crc(data[..|data| - 1]), data[|data| - 1]), 8)
  }

  lemma CrcNext(data: seq<Byte>, i: nat)
    requires i < |data|
    ensures Crc(data[..i + 1]) == Shift(XorByte(Crc(data[..i]), data[i]), 8)
  {
    assert data[..i + 1][..i] == data[..i];
  }

  method Crc8Maxim(data: seq<Byte>) returns (crc: Byte)
    ensures crc == Crc(data)
  {
    crc := 0;
    for i := 0 to |data|
      invariant crc == Crc(data[..i])
    {
      CrcNext(data, i);
      crc := XorByte(crc, data[i]);
      ghost var folded := crc;
      for k := 0 to 8
        invariant crc == Shift(folded, k)
      {
        crc := if crc % 2 == 1 then XorByte(crc / 2, POLYNOMIAL) else crc / 2;
      }
    }
    assert data[..|data|] == data;
  }

  // ---------------------------------------------------------------- the register as a bit machine

  const ZEROS: seq<bool> := [false, false, false, false, false, false, false, false]

  /** The message's bits in the order the register meets them. */
  function MessageBits(data: seq<Byte>): (bits: seq<bool>)
    ensures |bits| == 8 * |data|
  {
    if data == [] then [] else MessageBits(data[..|data| - 1]) + Bits(data[|data| - 1])
  }

  /** The register, as bits, meets one more message bit; what falls out decides the feedback. */
  function Feed(t: seq<bool>, bit: bool): (t': seq<bool>)
    requires |t| == 8
    ensures |t'| == 8
  {
    var f := t[0] != bit;
    [t[1], t[2], t[3] != f, t[4] != f, t[5], t[6], t[7], f]
  }

  function FeedAll(t: seq<bool>, bits: seq<bool>): (t': seq<bool>)
    requires |t| == 8
    ensures |t'| == 8
  {
    if bits == [] then t else Feed(FeedAll(t, bits[..|bits| - 1]), bits[|bits| - 1])
  }

  lemma {:induction false} FeedAllAppend(t: seq<bool>, a: seq<bool>, b: seq<bool>)
    requires |t| == 8
    ensures FeedAll(t, a + b) == FeedAll(FeedAll(t, a), b)
  {
    if b == [] {
      assert a + b == a;
    } else {
      var init := b[..|b| - 1];
      assert (a + b)[..|a + b| - 1] == a + init;
      FeedAllAppend(t, a, init);
    }
  }

  lemma HalfBits(x: nat, n: nat)
    requires x < Power2(n)
    ensures x / 2 < Power2(n) && LowBits(x / 2, n) == LowBits(x, n + 1)[1..]
    ensures !LowBits(x, n + 1)[n]
  {
    if n > 0 {
      HalfBits(x / 2, n - 1);
      assert LowBits(x, n + 1)[n] == LowBits(x / 2, n)[n - 1];
    }
  }

  lemma LowBitsPrefix(x: nat, n: nat)
    ensures LowBits(x, n + 1)[..n] == LowBits(x, n)
  {
    if n > 0 {
      LowBitsPrefix(x / 2, n - 1);
    }
  }

  lemma PolynomialBits()
    ensures Bits(POLYNOMIAL) == [false, false, true, true, false, false, false, true]
  {
    assert LowBits(8, 4) == [false, false, false, true];
  }

  lemma HalfByteBits(b: Byte)
    ensures Bits(b / 2) == Bits(b)[1..] + [false] && Bits(b)[0] == (b % 2 == 1)
  {
    Power2Of8();
    HalfBits(b, 8);
    LowBitsPrefix(b, 8);
    assert Bits(b / 2)[..7] == Bits(b)[1..];
  }

  lemma ShiftBitIsFeed(crc: Byte)
    ensures Bits(ShiftBit(crc)) == Feed(Bits(crc), false)
  {
    HalfByteBits(crc);
    PolynomialBits();
  }

  /** What is left to meet of a folded-in byte after `n` shifts. */
  function Remaining(x: seq<bool>, n: nat): (y: seq<bool>)
    requires |x| == 8 && n <= 8
    ensures |y| == 8
  {
    x[n..] + seq(n, i => false)
  }

  /** Shifting a folded-in byte is feeding its bits, with the bits not yet met still folded in. */
  lemma {:induction false} ShiftIsFeed(c: Byte, t: seq<bool>, x: seq<bool>, n: nat)
    requires |t| == |x| == 8 && n <= 8
    requires Bits(c) == Add(t, x)
    ensures Bits(Shift(c, n)) == Add(FeedAll(t, x[..n]), Remaining(x, n))
  {
    if n > 0 {
      ShiftIsFeed(c, t, x, n - 1);
      ShiftBitIsFeed(Shift(c, n - 1));
      OneLessRemains(x, n);
      FeedNext(t, x, n);
      FeedFolded(FeedAll(t, x[..n - 1]), Remaining(x, n - 1), Remaining(x, n));
    }
  }

  lemma OneLessRemains(x: seq<bool>, n: nat)
    requires |x| == 8 && 0 < n <= 8
    ensures Remaining(x, n)[..7] == Remaining(x, n - 1)[1..] && !Remaining(x, n)[7]
    ensures Remaining(x, n - 1)[0] == x[n - 1]
  {
  }

  lemma FeedNext(t: seq<bool>, x: seq<bool>, n: nat)
    requires |t| == |x| == 8 && 0 < n <= 8
    ensures FeedAll(t, x[..n]) == Feed(FeedAll(t, x[..n - 1]), x[n - 1])
  {
    assert x[..n][..n - 1] == x[..n - 1];
  }

  lemma FeedFolded(u: seq<bool>, y: seq<bool>, y': seq<bool>)
    requires |u| == |y| == |y'| == 8
    requires y'[..7] == y[1..] && !y'[7]
    ensures Feed(Add(u, y), false) == Add(Feed(u, y[0]), y')
  {
    assert forall i :: 0 <= i < 7 ==> y'[..7][i] == y'[i] && y[1..][i] == y[i + 1];
  }

  /** Folding a whole byte in and shifting eight times is meeting its eight bits one by one. */
  lemma FeedByte(crc: Byte, b: Byte)
    ensures Bits(Shift(XorByte(crc, b), 8)) == FeedAll(Bits(crc), Bits(b))
  {
    ShiftIsFeed(XorByte(crc, b), Bits(crc), Bits(b), 8);
    assert Bits(b)[..8] == Bits(b);
  }

  /** The byte loop computes what the bit-serial register computes. */
  lemma {:induction false} CrcIsBitSerial(data: seq<Byte>)
    ensures Bits(Crc(data)) == FeedAll(ZEROS, MessageBits(data))
  {
    if data == [] {
      ZeroBits(8);
    } else {
      var init, last := data[..|data| - 1], data[|data| - 1];
      CrcIsBitSerial(init);
      FeedAllAppend(ZEROS, MessageBits(init), Bits(last));
      FeedByte(Crc(init), last);
    }
  }
}
