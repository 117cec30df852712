/** What `Decode` says about a valid frame damaged on the air. */
module FrameDamage {
  import opened Bytes
  import opened WireFormat
  import opened Cipher
  import opened Crc8
  import opened Crc8Algebra
  import opened Crc8Detection
  import opened Frames

  /** A frame that passes every check before its fields are looked at. */
  ghost predicate Valid(raw: seq<Byte>) {
    Check(raw) == None
  }

  /** The span the checksum protects, with the checksum itself. */
  function Protected(raw: seq<Byte>): seq<Byte>
    requires |raw| >= 2
  {
    raw[..|raw| - 2]
  }

  /** Damage that leaves marker, declared length and terminator alone. */
  ghost predicate SparesFraming(error: seq<Byte>) {
    && |error| >= HEADER_LENGTH + TRAILER_LENGTH
    && error[0] == error[1] == error[LENGTH_OFFSET] == error[|error| - 2] == error[|error| - 1] == 0
  }

  lemma XorZero(b: Byte)
    ensures XorByte(b, 0) == b
  {
    ZeroBits(8);
    SameBitsSameByte(XorByte(b, 0), b);
  }

  lemma ProtectedSplits(raw: seq<Byte>)
    requires |raw| >= HEADER_LENGTH + TRAILER_LENGTH
    ensures var n := |raw| - TRAILER_LENGTH;
            Protected(raw) == raw[..n] + [raw[n]] && (Crc(Protected(raw)) == 0 <==> raw[n] == Crc(raw[..n]))
  {
    var n := |raw| - TRAILER_LENGTH;
    assert Protected(raw) == raw[..n] + [raw[n]];
    ResidueZero(raw[..n], raw[n]);
  }

  /** A string with a valid frame's framing bytes passes the checks exactly when its protected span checks. */
  lemma SameFraming(raw: seq<Byte>, raw': seq<Byte>)
    requires Valid(raw) && |raw'| == |raw|
    requires raw'[0] == raw[0] && raw'[1] == raw[1] && raw'[LENGTH_OFFSET] == raw[LENGTH_OFFSET]
    requires raw'[|raw| - 2] == raw[|raw| - 2] && raw'[|raw| - 1] == raw[|raw| - 1]
    ensures Check(raw') == if Crc(Protected(raw')) == 0 then None else Some(ChecksumError)
  {
    assert raw'[..2] == raw[..2] && raw'[|raw| - 2..] == raw[|raw| - 2..];
    ProtectedSplits(raw');
  }

  lemma XorSparesFraming(raw: seq<Byte>, error: seq<Byte>)
    requires |error| == |raw| && SparesFraming(error)
    ensures var raw' := Xor(raw, error);
            && raw'[0] == raw[0] && raw'[1] == raw[1] && raw'[LENGTH_OFFSET] == raw[LENGTH_OFFSET]
            && raw'[|raw| - 2] == raw[|raw| - 2] && raw'[|raw| - 1] == raw[|raw| - 1]
            && Protected(raw') == Xor(Protected(raw), Protected(error))
  {
    XorZero(raw[0]);
    XorZero(raw[1]);
    XorZero(raw[LENGTH_OFFSET]);
    XorZero(raw[|raw| - 2]);
    XorZero(raw[|raw| - 1]);
  }

  /** Damage to the protected span is reported as a checksum error, unless the damage itself checks. */
  lemma DamagedDecode(c: BlockCipher, raw: seq<Byte>, error: seq<Byte>, key: Option<seq<Byte>>)
    requires c.Lawful() && Valid(raw) && |error| == |raw| && SparesFraming(error)
    ensures Crc(Protected(raw)) == 0
    ensures var undetected := Crc(Xor(Protected(raw), Protected(error))) == 0;
            && (Valid(Xor(raw, error)) <==> undetected)
            && (!undetected ==> Decode(c, Xor(raw, error), key) == Err(ChecksumError))
  {
    XorSparesFraming(raw, error);
    SameFraming(raw, raw);
    SameFraming(raw, Xor(raw, error));
  }

  /** An odd number of flipped bits in the protected span is reported as a checksum error. */
  lemma OddDamage(c: BlockCipher, raw: seq<Byte>, error: seq<Byte>, key: Option<seq<Byte>>)
    requires c.Lawful() && Valid(raw) && |error| == |raw| && SparesFraming(error)
    requires Weight(MessageBits(Protected(error))) % 2 == 1
    ensures Decode(c, Xor(raw, error), key) == Err(ChecksumError)
  {
    DamagedDecode(c, raw, error, key);
    OddErrorsDetected(Protected(raw), Protected(error));
  }

  /** Damage within eight consecutive bits of the protected span is reported as a checksum error. */
  lemma BurstDamage(c: BlockCipher, raw: seq<Byte>, error: seq<Byte>, key: Option<seq<Byte>>, p: nat)
    requires c.Lawful() && Valid(raw) && |error| == |raw| && SparesFraming(error)
    requires exists i :: 0 <= i < 8 * (|error| - 2) && MessageBits(Protected(error))[i]
    requires forall i :: 0 <= i < 8 * (|error| - 2) && MessageBits(Protected(error))[i] ==> p <= i < p + 8
    ensures Decode(c, Xor(raw, error), key) == Err(ChecksumError)
  {
    DamagedDecode(c, raw, error, key);
    BurstsDetected(Protected(raw), Protected(error), p);
  }

  /** Two flipped bits in the protected span pass the checks exactly when they are a multiple of 127 bits apart. */
  lemma TwoBitDamage(c: BlockCipher, raw: seq<Byte>, error: seq<Byte>, i: nat, j: nat)
    requires c.Lawful() && Valid(raw) && |error| == |raw| && SparesFraming(error)
    requires i < j < 8 * (|error| - 2)
    requires forall k :: 0 <= k < 8 * (|error| - 2) ==> MessageBits(Protected(error))[k] == (k == i || k == j)
    ensures Valid(Xor(raw, error)) <==> (j - i) % 127 == 0
  {
    DamagedDecode(c, raw, error, None);
    TwoBitErrors(Protected(raw), Protected(error), i, j);
  }

  // ---------------------------------------------------------------- one damaged byte

  /** The pattern that turns byte `at` of a string into `b`. */
  function OneByteError(raw: seq<Byte>, at: nat, b: Byte): (error: seq<Byte>)
    requires at < |raw|
    ensures |error| == |raw|
  {
    Repeat(0, |raw|)[at := XorByte(raw[at], b)]
  }

  lemma OneByteErrorApplies(raw: seq<Byte>, at: nat, b: Byte)
    requires at < |raw|
    ensures Xor(raw, OneByteError(raw, at, b)) == raw[at := b]
  {
    forall i | 0 <= i < |raw| ensures Xor(raw, OneByteError(raw, at, b))[i] == raw[at := b][i] {
      if i == at {
        var d := XorByte(raw[at], b);
        assert Add(Bits(raw[at]), Add(Bits(raw[at]), Bits(b))) == Bits(b);
        SameBitsSameByte(XorByte(raw[at], d), b);
      } else {
        XorZero(raw[i]);
      }
    }
  }

  lemma {:induction false} MessageBitsAt(data: seq<Byte>, i: nat)
    requires i < 8 * |data|
    ensures MessageBits(data)[i] == Bits(data[i / 8])[i % 8]
  {
    var n := |data| - 1;
    if i < 8 * n {
      MessageBitsAt(data[..n], i);
    } else {
      assert i / 8 == n && i % 8 == i - 8 * n;
    }
  }

  lemma NonZeroByteHasBit(b: Byte)
    requires b != 0
    ensures exists k :: 0 <= k < 8 && Bits(b)[k]
  {
    ZeroBits(8);
    if forall k :: 0 <= k < 8 ==> !Bits(b)[k] {
      assert Bits(b) == Bits(0);
      SameBitsSameByte(b, 0);
    }
  }

  /** The bits of a one-byte error lie within eight consecutive positions and are not all clear. */
  lemma OneByteErrorIsBurst(raw: seq<Byte>, at: nat, b: Byte)
    requires at < |raw| - 2 && raw[at] != b
    ensures var bits := MessageBits(Protected(OneByteError(raw, at, b)));
            && (exists i :: 0 <= i < |bits| && bits[i])
            && (forall i :: 0 <= i < |bits| && bits[i] ==> 8 * at <= i < 8 * at + 8)
  {
    var error := Protected(OneByteError(raw, at, b));
    XorByteZero(raw[at], b);
    NonZeroByteHasBit(error[at]);
    var k :| 0 <= k < 8 && Bits(error[at])[k];
    MessageBitsAt(error, 8 * at + k);
    forall i | 0 <= i < 8 * |error| && MessageBits(error)[i] ensures 8 * at <= i < 8 * at + 8 {
      MessageBitsAt(error, i);
      ZeroBits(8);
      assert i / 8 == at;
    }
  }

  /** Any change to one byte of a valid frame makes `Decode` fail, and where the byte stands decides how:
      a framing byte is a frame error, every other byte a checksum error. */
  lemma OneByteDamage(c: BlockCipher, raw: seq<Byte>, at: nat, b: Byte, key: Option<seq<Byte>>)
    requires c.Lawful() && Valid(raw) && at < |raw| && b != raw[at]
    ensures Decode(c, raw[at := b], key) == Err(
              if at < 2 then FrameError(NoMagic)
              else if at == LENGTH_OFFSET then FrameError(WrongLength)
              else if at >= |raw| - 2 then FrameError(NoTerminator)
              else ChecksumError)
  {
    var n, raw' := |raw|, raw[at := b];
    if at < 2 {
      assert raw'[..2][at] != raw[..2][at];
    } else if at >= n - 2 {
      assert raw'[..2] == raw[..2];
      assert raw'[n - 2..][at - (n - 2)] != raw[n - 2..][at - (n - 2)];
    } else if at == LENGTH_OFFSET {
      assert raw'[..2] == raw[..2] && raw'[n - 2..] == raw[n - 2..];
    } else {
      OneProtectedByteDamage(c, raw, at, b, key);
    }
  }

  lemma OneProtectedByteDamage(c: BlockCipher, raw: seq<Byte>, at: nat, b: Byte, key: Option<seq<Byte>>)
    requires c.Lawful() && Valid(raw) && 2 <= at < |raw| - 2 && at != LENGTH_OFFSET && b != raw[at]
    ensures Decode(c, raw[at := b], key) == Err(ChecksumError)
  {
    OneByteErrorApplies(raw, at, b);
    OneByteErrorIsBurst(raw, at, b);
    BurstDamage(c, raw, OneByteError(raw, at, b), key, 8 * at);
  }
}
