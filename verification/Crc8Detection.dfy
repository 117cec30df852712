/** Which transmission errors the CRC-8/MAXIM checksum catches. */
module Crc8Detection {
  import opened Bytes
  import opened Crc8
  import opened Crc8Algebra

  /** An error turns a string that checks into one that checks exactly when the error pattern itself checks. */
  lemma ErrorUndetected(word: seq<Byte>, error: seq<Byte>)
    requires |error| == |word| && Crc(word) == 0
    ensures Crc(Xor(word, error)) == 0 <==> FeedAll(ZEROS, MessageBits(error)) == ZEROS
  {
    CrcAdditive(word, error);
    XorByteZero(0, Crc(error));
    CrcIsBitSerial(error);
    ZeroBits(8);
    var zero := Bits(0);
    assert zero == ZEROS;
    if Bits(Crc(error)) == ZEROS {
      SameBitsSameByte(Crc(error), 0);
    }
  }

  // ---------------------------------------------------------------- odd numbers of flipped bits

  function Weight(bits: seq<bool>): nat {
    if bits == [] then 0 else Weight(bits[..|bits| - 1]) + if bits[|bits| - 1] then 1 else 0
  }

  function Odd(t: seq<bool>): bool
    requires |t| == 8
  {
    ((((((t[0] != t[1]) != t[2]) != t[3]) != t[4]) != t[5]) != t[6]) != t[7]
  }

  lemma FeedFlipsParity(t: seq<bool>, bit: bool)
    requires |t| == 8
    ensures Odd(Feed(t, bit)) == (Odd(t) != bit)
  {
  }

  lemma {:induction false} RegisterParity(bits: seq<bool>)
    ensures Odd(FeedAll(ZEROS, bits)) == (Weight(bits) % 2 == 1)
  {
    if bits != [] {
      RegisterParity(bits[..|bits| - 1]);
      FeedFlipsParity(FeedAll(ZEROS, bits[..|bits| - 1]), bits[|bits| - 1]);
    }
  }

  /** An odd number of flipped bits is always caught. */
  lemma OddErrorsDetected(word: seq<Byte>, error: seq<Byte>)
    requires |error| == |word| && Crc(word) == 0
    requires Weight(MessageBits(error)) % 2 == 1
    ensures Crc(Xor(word, error)) != 0
  {
    ErrorUndetected(word, error);
    RegisterParity(MessageBits(error));
  }

  // ---------------------------------------------------------------- bursts

  function Zeros(n: nat): (bits: seq<bool>)
    ensures |bits| == n && forall i :: 0 <= i < n ==> !bits[i]
  {
    seq(n, i => false)
  }

  lemma {:induction false} ZerosKeepZero(t: seq<bool>, n: nat)
    requires |t| == 8
    ensures FeedAll(t, Zeros(n)) == ZEROS <==> t == ZEROS
  {
    if n > 0 {
      assert Zeros(n)[..n - 1] == Zeros(n - 1);
      ZerosKeepZero(t, n - 1);
      var u := FeedAll(t, Zeros(n - 1));
      if Feed(u, false) == ZEROS {
        FeedZero(u, false);
        assert u == ZEROS;
      }
    }
  }

  /** A byte that is not zero leaves the empty register not empty. */
  lemma WindowSeen(window: seq<bool>)
    requires |window| == 8 && window != ZEROS
    ensures FeedAll(ZEROS, window) != ZEROS
  {
    var b := ByteOfBits(window);
    ZeroBits(8);
    assert Bits(0) == ZEROS;
    FeedByte(0, b);
    XorByteZero(0, b);
    ShiftZero(XorByte(0, b), 8);
    if FeedAll(ZEROS, window) == ZEROS {
      SameBitsSameByte(Shift(XorByte(0, b), 8), 0);
    }
  }

  lemma WindowFits(bits: seq<bool>, p: nat) returns (padded: seq<bool>, window: seq<bool>)
    requires exists i :: 0 <= i < |bits| && bits[i]
    requires forall i :: 0 <= i < |bits| && bits[i] ==> p <= i < p + 8
    ensures p <= |bits| && |window| == 8 && window != ZEROS
    ensures padded == bits + Zeros(8) == (Zeros(p) + window) + Zeros(|bits| - p)
  {
    var i :| 0 <= i < |bits| && bits[i];
    padded := bits + Zeros(8);
    window := padded[p..p + 8];
    assert padded[i] && window[i - p];
    assert forall k :: 0 <= k < |padded| && padded[k] ==> k < |bits| && bits[k];
    var lead, tail := padded[..p], padded[p + 8..];
    assert forall k :: 0 <= k < |lead| ==> lead[k] == padded[k];
    assert forall k :: 0 <= k < |tail| ==> tail[k] == padded[p + 8 + k];
    assert lead == Zeros(p) && tail == Zeros(|bits| - p);
  }

  lemma WindowAmongZerosSeen(padded: seq<bool>, window: seq<bool>, p: nat, rest: nat)
    requires |window| == 8 && window != ZEROS && padded == (Zeros(p) + window) + Zeros(rest)
    ensures FeedAll(ZEROS, padded) != ZEROS
  {
    ZerosKeepZero(ZEROS, p);
    WindowSeen(window);
    FeedAllAppend(ZEROS, Zeros(p), window);
    FeedAllAppend(ZEROS, Zeros(p) + window, Zeros(rest));
    ZerosKeepZero(FeedAll(ZEROS, window), rest);
  }

  lemma PaddingKeepsZero(padded: seq<bool>, bits: seq<bool>, n: nat)
    requires padded == bits + Zeros(n)
    ensures FeedAll(ZEROS, padded) == ZEROS <==> FeedAll(ZEROS, bits) == ZEROS
  {
    FeedAllAppend(ZEROS, bits, Zeros(n));
    ZerosKeepZero(FeedAll(ZEROS, bits), n);
  }

  lemma {:induction false} BurstSeen(bits: seq<bool>, p: nat)
    requires exists i :: 0 <= i < |bits| && bits[i]
    requires forall i :: 0 <= i < |bits| && bits[i] ==> p <= i < p + 8
    ensures FeedAll(ZEROS, bits) != ZEROS
  {
    // Padded with zeros, a whole window of eight fits behind position p.
    var padded, window := WindowFits(bits, p);
    WindowAmongZerosSeen(padded, window, p, |bits| - p);
    PaddingKeepsZero(padded, bits, 8);
  }

  /** Any damage confined to eight consecutive bits, wherever they start, is always caught. */
  lemma BurstsDetected(word: seq<Byte>, error: seq<Byte>, p: nat)
    requires |error| == |word| && Crc(word) == 0
    requires exists i :: 0 <= i < 8 * |error| && MessageBits(error)[i]
    requires forall i :: 0 <= i < 8 * |error| && MessageBits(error)[i] ==> p <= i < p + 8
    ensures Crc(Xor(word, error)) != 0
  {
    ErrorUndetected(word, error);
    BurstSeen(MessageBits(error), p);
  }

  // ---------------------------------------------------------------- two flipped bits

  /** A polynomial of degree below 8: `c7` is the coefficient of x^7. */
  datatype Residue = Residue(c7: bool, c6: bool, c5: bool, c4: bool, c3: bool, c2: bool, c1: bool, c0: bool)

  const UNIT := Residue(false, false, false, false, false, false, false, true)

  function AsBits(r: Residue): (t: seq<bool>)
    ensures |t| == 8
  {
    [r.c7, r.c6, r.c5, r.c4, r.c3, r.c2, r.c1, r.c0]
  }

  /** Multiplication by x, modulo the generator. */
  function TimesX(r: Residue): Residue {
    Residue(r.c6, r.c5, r.c4 != r.c7, r.c3 != r.c7, r.c2, r.c1, r.c0, r.c7)
  }

  function TimesXTo(r: Residue, n: nat): Residue {
    if n == 0 then r else TimesX(TimesXTo(r, n - 1))
  }

  /** Squaring, modulo the generator: over two elements the square of a sum is the sum of the squares. */
  function Square(r: Residue): Residue {
    Residue(
      r.c5,
      (r.c3 != r.c5) != r.c6,
      r.c4 != r.c7,
      (r.c2 != r.c4) != r.c7,
      r.c7,
      (r.c1 != r.c5) != r.c7,
      r.c6,
      ((r.c0 != r.c4) != r.c6) != r.c7)
  }

  lemma SquareTimesX(r: Residue)
    ensures Square(TimesX(r)) == TimesX(TimesX(Square(r)))
  {
  }

  lemma {:induction false} SquareOfPower(n: nat)
    ensures TimesXTo(UNIT, 2 * n) == Square(TimesXTo(UNIT, n))
  {
    if n > 0 {
      SquareOfPower(n - 1);
      SquareTimesX(TimesXTo(UNIT, n - 1));
      assert TimesXTo(UNIT, 2 * n - 1) == TimesX(TimesXTo(UNIT, 2 * n - 2));
    }
  }

  lemma TimesXInjective(a: Residue, b: Residue)
    requires TimesX(a) == TimesX(b)
    ensures a == b
  {
  }

  lemma {:induction false} TimesXToInjective(a: Residue, b: Residue, n: nat)
    ensures TimesXTo(a, n) == TimesXTo(b, n) <==> a == b
  {
    if n > 0 {
      TimesXToInjective(a, b, n - 1);
      if TimesXTo(a, n) == TimesXTo(b, n) {
        TimesXInjective(TimesXTo(a, n - 1), TimesXTo(b, n - 1));
      }
    }
  }

  lemma {:induction false} TimesXToAdds(r: Residue, m: nat, n: nat)
    ensures TimesXTo(r, m + n) == TimesXTo(TimesXTo(r, m), n)
  {
    if n > 0 {
      TimesXToAdds(r, m, n - 1);
    }
  }

  /** x^127 is 1: x^128, seven squarings of x, is x again. */
  lemma PeriodIs127()
    ensures TimesXTo(UNIT, 127) == UNIT
  {
    assert TimesXTo(UNIT, 1) == TimesX(UNIT);
    SquareOfPower(1);
    SquareOfPower(2);
    SquareOfPower(4);
    SquareOfPower(8);
    SquareOfPower(16);
    SquareOfPower(32);
    SquareOfPower(64);
    assert TimesXTo(UNIT, 128) == TimesX(TimesXTo(UNIT, 127));
    TimesXInjective(TimesXTo(UNIT, 127), UNIT);
  }

  predicate Period(n: nat) {
    TimesXTo(UNIT, n) == UNIT
  }

  lemma PeriodDifference(m: nat, n: nat)
    requires m <= n && Period(m)
    ensures Period(n) <==> Period(n - m)
  {
    TimesXToAdds(UNIT, m, n - m);
  }

  lemma {:induction false} PeriodRemainder(n: nat)
    ensures Period(n) <==> Period(n % 127)
  {
    if n >= 127 {
      PeriodIs127();
      PeriodDifference(127, n);
      PeriodRemainder(n - 127);
      assert (n - 127) % 127 == n % 127;
    }
  }

  /** Euclid's descent: two periods have a common divisor that is a period itself. */
  lemma {:induction false} CommonPeriod(m: nat, n: nat) returns (g: nat, p: nat, q: nat)
    requires 0 < m && 0 < n && Period(m) && Period(n)
    ensures 0 < g <= m && Period(g) && m == p * g && n == q * g
    decreases m + n
  {
    if m == n {
      g, p, q := m, 1, 1;
    } else if m < n {
      PeriodDifference(m, n);
      g, p, q := CommonPeriod(m, n - m);
      assert (p + q) * g == p * g + q * g;
      q := p + q;
    } else {
      PeriodDifference(n, m);
      g, p, q := CommonPeriod(m - n, n);
      assert (p + q) * g == p * g + q * g;
      p := p + q;
    }
  }

  lemma Prime127(g: nat, q: nat)
    requires 0 < g < 127 && 127 == q * g
    ensures g == 1
  {
  }

  lemma PeriodsAreMultiplesOf127(n: nat)
    ensures Period(n) <==> n % 127 == 0
  {
    PeriodRemainder(n);
    assert TimesXTo(UNIT, 1) == TimesX(UNIT);
    var r := n % 127;
    if r > 0 && Period(r) {
      PeriodIs127();
      var g, p, q := CommonPeriod(r, 127);
      Prime127(g, q);
    }
  }

  lemma FeedZeroIsTimesX(r: Residue)
    ensures Feed(AsBits(r), false) == AsBits(TimesX(r))
  {
  }

  lemma {:induction false} ZerosMultiply(r: Residue, n: nat)
    ensures FeedAll(AsBits(r), Zeros(n)) == AsBits(TimesXTo(r, n))
  {
    if n > 0 {
      assert Zeros(n)[..n - 1] == Zeros(n - 1);
      ZerosMultiply(r, n - 1);
      FeedZeroIsTimesX(TimesXTo(r, n - 1));
    }
  }

  /** The register after one set bit, `n` clear ones and another set bit is empty only if x^(n+1) is 1. */
  lemma TwoBitsCancel(n: nat)
    ensures Feed(FeedAll(Feed(ZEROS, true), Zeros(n)), true) == ZEROS <==> (n + 1) % 127 == 0
  {
    var x7 := TimesXTo(UNIT, 7);
    var x8 := TimesXTo(UNIT, 8);
    SquareOfPower(1);
    SquareOfPower(2);
    SquareOfPower(4);
    assert TimesXTo(UNIT, 1) == TimesX(UNIT);
    assert x8 == TimesX(x7);
    TimesXInjective(x7, Residue(true, false, false, false, false, false, false, false));
    assert Feed(ZEROS, true) == AsBits(x8);
    ZerosMultiply(x8, n);
    var u := TimesXTo(x8, n);
    assert Feed(AsBits(u), true) == ZEROS <==> u == x7;
    TimesXToAdds(UNIT, 8, n);
    TimesXToAdds(UNIT, n + 1, 7);
    TimesXToInjective(TimesXTo(UNIT, n + 1), UNIT, 7);
    PeriodsAreMultiplesOf127(n + 1);
  }

  lemma FeedOne(t: seq<bool>)
    requires |t| == 8
    ensures FeedAll(t, [true]) == Feed(t, true)
  {
    assert [true][..0] == [];
  }

  lemma FeedTwoBits(i: nat, n: nat, rest: nat)
    ensures FeedAll(ZEROS, (((Zeros(i) + [true]) + Zeros(n)) + [true]) + Zeros(rest)) == ZEROS
       <==> Feed(FeedAll(Feed(ZEROS, true), Zeros(n)), true) == ZEROS
  {
    var u := FeedAll(Feed(ZEROS, true), Zeros(n));
    ZerosKeepZero(ZEROS, i);
    FeedOne(ZEROS);
    FeedOne(u);
    ZerosKeepZero(Feed(u, true), rest);
    FeedAllAppend(ZEROS, Zeros(i), [true]);
    FeedAllAppend(ZEROS, Zeros(i) + [true], Zeros(n));
    FeedAllAppend(ZEROS, (Zeros(i) + [true]) + Zeros(n), [true]);
    FeedAllAppend(ZEROS, ((Zeros(i) + [true]) + Zeros(n)) + [true], Zeros(rest));
  }

  lemma TwoBitsAmongZeros(bits: seq<bool>, i: nat, j: nat)
    requires i < j < |bits|
    requires forall k :: 0 <= k < |bits| ==> bits[k] == (k == i || k == j)
    ensures bits == (((Zeros(i) + [true]) + Zeros(j - i - 1)) + [true]) + Zeros(|bits| - 1 - j)
  {
  }

  lemma FeedPair(bits: seq<bool>, i: nat, j: nat)
    requires i < j < |bits|
    requires forall k :: 0 <= k < |bits| ==> bits[k] == (k == i || k == j)
    ensures FeedAll(ZEROS, bits) == ZEROS <==> (j - i) % 127 == 0
  {
    TwoBitsAmongZeros(bits, i, j);
    FeedTwoBits(i, j - i - 1, |bits| - 1 - j);
    TwoBitsCancel(j - i - 1);
  }

  /** Two flipped bits go unnoticed exactly when they are a multiple of 127 bits apart. */
  lemma TwoBitErrors(word: seq<Byte>, error: seq<Byte>, i: nat, j: nat)
    requires |error| == |word| && Crc(word) == 0
    requires i < j < 8 * |error|
    requires forall k :: 0 <= k < 8 * |error| ==> MessageBits(error)[k] == (k == i || k == j)
    ensures Crc(Xor(word, error)) == 0 <==> (j - i) % 127 == 0
  {
    ErrorUndetected(word, error);
    FeedPair(MessageBits(error), i, j);
  }
}
