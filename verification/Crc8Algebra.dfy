/** What the CRC-8/MAXIM checksum is, as polynomial arithmetic over the two-element field. */
module Crc8Algebra {
  import opened Bytes
  import opened Crc8

  // ---------------------------------------------------------------- the checksum is a remainder

  /** Exclusive or is addition in the two-element field; `!=` on booleans is exclusive or. */
  function Coefficient(p: seq<bool>, k: int): bool {
    0 <= k < |p| && p[k]
  }

  /** Coefficient `k`, leading one first, of q * (x^8 + x^5 + x^4 + 1). */
  function TimesGenerator(q: seq<bool>, k: int): bool {
    ((Coefficient(q, k) != Coefficient(q, k - 3)) != Coefficient(q, k - 4)) != Coefficient(q, k - 8)
  }

  /** m * x^8 == q * (x^8 + x^5 + x^4 + 1) + r as polynomials, where the first bit of `m` and of `q` is
      the leading coefficient and bit 0 of the register `r` is the coefficient of x^7. */
  ghost predicate Division(m: seq<bool>, q: seq<bool>, r: seq<bool>) {
    && |q| == |m| && |r| == 8
    && forall k :: 0 <= k < |m| + 8 ==> DivisionAt(m, q, r, k)
  }

  predicate DivisionAt(m: seq<bool>, q: seq<bool>, r: seq<bool>, k: int) {
    Coefficient(m, k) == (TimesGenerator(q, k) != Coefficient(r, k - |m|))
  }

  /** The feedback bits, one for each message bit. */
  function Quotient(m: seq<bool>): (q: seq<bool>)
    ensures |q| == |m|
  {
    if m == [] then []
    else
      var init := m[..|m| - 1];
      Quotient(init) + [FeedAll(ZEROS, init)[0] != m[|m| - 1]]
  }

  lemma {:induction false} RegisterDivides(m: seq<bool>)
    ensures Division(m, Quotient(m), FeedAll(ZEROS, m))
  {
    if m != [] {
      var init, bit := m[..|m| - 1], m[|m| - 1];
      RegisterDivides(init);
      assert m == init + [bit];
      forall k | 0 <= k < |m| + 8
        ensures DivisionAt(m, Quotient(m), FeedAll(ZEROS, m), k)
      {
        DivisionStep(init, Quotient(init), FeedAll(ZEROS, init), bit, k);
      }
    }
  }

  lemma DivisionStep(m: seq<bool>, q: seq<bool>, t: seq<bool>, bit: bool, k: int)
    requires |q| == |m| && |t| == 8 && 0 <= k < |m| + 9
    requires k < |m| + 8 ==> DivisionAt(m, q, t, k)
    ensures DivisionAt(m + [bit], q + [t[0] != bit], Feed(t, bit), k)
  {
    var f := t[0] != bit;
    CoefficientOfAppended(m, bit, k);
    CoefficientOfAppended(q, f, k);
    CoefficientOfAppended(q, f, k - 3);
    CoefficientOfAppended(q, f, k - 4);
    CoefficientOfAppended(q, f, k - 8);
  }

  lemma CoefficientOfAppended(q: seq<bool>, f: bool, k: int)
    ensures Coefficient(q + [f], k) == if k == |q| then f else Coefficient(q, k)
  {
  }

  lemma QuotientIsForced(m: seq<bool>, q1: seq<bool>, r1: seq<bool>, q2: seq<bool>, r2: seq<bool>, k: nat)
    requires Division(m, q1, r1) && Division(m, q2, r2)
    requires k <= |m|
    ensures forall j :: 0 <= j < k ==> q1[j] == q2[j]
  {
    if k > 0 {
      QuotientIsForced(m, q1, r1, q2, r2, k - 1);
      assert DivisionAt(m, q1, r1, k - 1) && DivisionAt(m, q2, r2, k - 1);
    }
  }

  /** Division with remainder has one answer. */
  lemma DivisionIsUnique(m: seq<bool>, q1: seq<bool>, r1: seq<bool>, q2: seq<bool>, r2: seq<bool>)
    requires Division(m, q1, r1) && Division(m, q2, r2)
    ensures q1 == q2 && r1 == r2
  {
    QuotientIsForced(m, q1, r1, q2, r2, |m|);
    assert q1 == q2;
    forall i | 0 <= i < 8 ensures r1[i] == r2[i] {
      assert DivisionAt(m, q1, r1, |m| + i) && DivisionAt(m, q2, r2, |m| + i);
    }
  }

  /** The checksum is the remainder of the message times x^8 modulo x^8 + x^5 + x^4 + 1, and nothing else is. */
  lemma CrcIsRemainder(data: seq<Byte>, r: Byte)
    ensures r == Crc(data) <==> exists q :: Division(MessageBits(data), q, Bits(r))
  {
    var m := MessageBits(data);
    CrcIsBitSerial(data);
    RegisterDivides(m);
    if exists q :: Division(m, q, Bits(r)) {
      var q :| Division(m, q, Bits(r));
      DivisionIsUnique(m, q, Bits(r), Quotient(m), Bits(Crc(data)));
      SameBitsSameByte(r, Crc(data));
    }
  }

  // ---------------------------------------------------------------- linearity and residue

  lemma {:induction false} MessageBitsAdd(a: seq<Byte>, b: seq<Byte>)
    requires |a| == |b|
    ensures MessageBits(Xor(a, b)) == Add(MessageBits(a), MessageBits(b))
  {
    if a != [] {
      var n := |a| - 1;
      MessageBitsAdd(a[..n], b[..n]);
      assert Xor(a, b)[..n] == Xor(a[..n], b[..n]);
    }
  }

  lemma CoefficientAdds(p: seq<bool>, q: seq<bool>, k: int)
    requires |p| == |q|
    ensures Coefficient(Add(p, q), k) == (Coefficient(p, k) != Coefficient(q, k))
  {
  }

  lemma TimesGeneratorAdds(p: seq<bool>, q: seq<bool>, k: int)
    requires |p| == |q|
    ensures TimesGenerator(Add(p, q), k) == (TimesGenerator(p, k) != TimesGenerator(q, k))
  {
    CoefficientAdds(p, q, k);
    CoefficientAdds(p, q, k - 3);
    CoefficientAdds(p, q, k - 4);
    CoefficientAdds(p, q, k - 8);
  }

  lemma DivisionAdds(m1: seq<bool>, q1: seq<bool>, r1: seq<bool>, m2: seq<bool>, q2: seq<bool>, r2: seq<bool>)
    requires |m1| == |m2| && Division(m1, q1, r1) && Division(m2, q2, r2)
    ensures Division(Add(m1, m2), Add(q1, q2), Add(r1, r2))
  {
    forall k | 0 <= k < |m1| + 8
      ensures DivisionAt(Add(m1, m2), Add(q1, q2), Add(r1, r2), k)
    {
      assert DivisionAt(m1, q1, r1, k) && DivisionAt(m2, q2, r2, k);
      CoefficientAdds(m1, m2, k);
      TimesGeneratorAdds(q1, q2, k);
      CoefficientAdds(r1, r2, k - |m1|);
    }
  }

  /** Checksums of messages of one length add up, because division does. */
  lemma CrcAdditive(a: seq<Byte>, b: seq<Byte>)
    requires |a| == |b|
    ensures Crc(Xor(a, b)) == XorByte(Crc(a), Crc(b))
  {
    var ma, mb := MessageBits(a), MessageBits(b);
    CrcIsBitSerial(a);
    CrcIsBitSerial(b);
    RegisterDivides(ma);
    RegisterDivides(mb);
    DivisionAdds(ma, Quotient(ma), Bits(Crc(a)), mb, Quotient(mb), Bits(Crc(b)));
    MessageBitsAdd(a, b);
    CrcIsRemainder(Xor(a, b), XorByte(Crc(a), Crc(b)));
  }

  /** A message followed by a byte leaves residue 0 exactly when that byte is its checksum. */
  lemma ResidueZero(body: seq<Byte>, c: Byte)
    ensures Crc(body + [c]) == 0 <==> c == Crc(body)
  {
    assert (body + [c])[..|body|] == body;
    ShiftZero(XorByte(Crc(body), c), 8);
    XorByteZero(Crc(body), c);
  }

  lemma ShiftZero(c: Byte, n: nat)
    ensures Shift(c, n) == 0 <==> c == 0
  {
    if n > 0 {
      ShiftZero(c, n - 1);
      var r := Shift(c, n - 1);
      ShiftBitIsFeed(r);
      ZeroBits(8);
      if ShiftBit(r) == 0 {
        FeedZero(Bits(r), false);
        SameBitsSameByte(r, 0);
      }
    }
  }

  lemma FeedZero(t: seq<bool>, bit: bool)
    requires |t| == 8
    requires Feed(t, bit) == ZEROS
    ensures t[0] == bit && t[1..] == ZEROS[1..]
  {
    var u := Feed(t, bit);
    assert u[0] == u[1] == u[2] == u[3] == u[4] == u[5] == u[6] == u[7] == false;
  }
}
