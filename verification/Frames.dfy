/** One whole TTLock Bluetooth frame: its serialisation and its parsing. */
module Frames {
  import opened Bytes
  import opened WireFormat
  import opened Cipher
  import opened Crc8

  /** The envelope values identifying a lock's protocol dialect. */
  datatype LockVersion = LockVersion(protocolType: int, protocolVersion: int, scene: int, groupId: int, orgId: int)

  datatype Frame = Frame(version: LockVersion, command: int, data: seq<Byte>, scrambleKey: int)

  datatype EncodeError = BadKey | PayloadTooLong | NotAByte | NotTwoBytes

  datatype FrameFault = TooShort | NoMagic | NoTerminator | WrongLength

  datatype DecodeError =
    | FrameError(fault: FrameFault)
    | ChecksumError
    | UnsupportedProtocol
    | DecryptError
    | BadDecryptKey

  predicate IsByte(n: int) { 0 <= n < 256 }

  predicate IsTwoBytes(n: int) { 0 <= n < 65536 }

  /** The fields fit the bytes the layout gives them. */
  predicate InRange(f: Frame) {
    && IsByte(f.version.protocolType) && IsByte(f.version.protocolVersion) && IsByte(f.version.scene)
    && IsTwoBytes(f.version.groupId) && IsTwoBytes(f.version.orgId)
    && IsByte(f.command) && IsByte(f.scrambleKey)
  }

  /** Header and payload, the span the checksum covers. */
  function Body(f: Frame, payload: seq<Byte>): (body: seq<Byte>)
    requires InRange(f) && |payload| <= MAX_DATA_LENGTH
    ensures |body| == HEADER_LENGTH + |payload|
  {
    MAGIC
    + [f.version.protocolType, f.version.protocolVersion, f.version.scene]
    + ToBigEndian2(f.version.groupId)
    + ToBigEndian2(f.version.orgId)
    + [f.command, f.scrambleKey, |payload|]
    + payload
  }

  function Seal(body: seq<Byte>): (raw: seq<Byte>)
    ensures |raw| == |body| + TRAILER_LENGTH
  {
    body + [Crc(body)] + TERMINATOR
  }

  function Payload(c: BlockCipher, f: Frame, key: Option<seq<Byte>>): Result<seq<Byte>, EncodeError>
    requires c.Lawful()
  {
    match key
    case None => Ok(f.data)
    case Some(k) =>
      match Encrypt(c, k, f.data)
      case Ok(coded) => Ok(coded)
      case Err(_) => Err(BadKey)
  }

  function Encode(c: BlockCipher, f: Frame, key: Option<seq<Byte>>): Result<seq<Byte>, EncodeError>
    requires c.Lawful()
  {
    match Payload(c, f, key)
    case Err(e) => Err(e)
    case Ok(payload) =>
      if |payload| > MAX_DATA_LENGTH then Err(PayloadTooLong)
      else if !(IsByte(f.version.protocolType) && IsByte(f.version.protocolVersion) && IsByte(f.version.scene))
      then Err(NotAByte)
      else if !(IsTwoBytes(f.version.groupId) && IsTwoBytes(f.version.orgId)) then Err(NotTwoBytes)
      else if !(IsByte(f.command) && IsByte(f.scrambleKey)) then Err(NotAByte)
      else Ok(Seal(Body(f, payload)))
  }

  /** The checks made before any field is looked at. */
  function Check(raw: seq<Byte>): Option<DecodeError> {
    if |raw| < HEADER_LENGTH + TRAILER_LENGTH then Some(FrameError(TooShort))
    else if raw[..2] != MAGIC then Some(FrameError(NoMagic))
    else if raw[|raw| - 2..] != TERMINATOR then Some(FrameError(NoTerminator))
    else
      var length := raw[LENGTH_OFFSET] as nat;
      if |raw| != HEADER_LENGTH + length + TRAILER_LENGTH then Some(FrameError(WrongLength))
      else if raw[HEADER_LENGTH + length] != Crc(raw[..HEADER_LENGTH + length]) then Some(ChecksumError)
      else None
  }

  function Decode(c: BlockCipher, raw: seq<Byte>, key: Option<seq<Byte>>): Result<Frame, DecodeError>
    requires c.Lawful()
  {
    match Check(raw)
    case Some(e) => Err(e)
    case None =>
      if raw[10] != 0 then Err(UnsupportedProtocol)
      else
        var payload := raw[HEADER_LENGTH..HEADER_LENGTH + raw[LENGTH_OFFSET] as nat];
        var data := if key.Some? && payload != [] then Decrypt(c, key.value, payload) else Ok(payload);
        match data
        case Err(BadKeyLength) => Err(BadDecryptKey)
        case Err(_) => Err(DecryptError)
        case Ok(d) =>
          Ok(Frame(
            LockVersion(raw[2], raw[3], raw[4], FromBigEndian2(raw[5..7]), FromBigEndian2(raw[7..9])),
            raw[9], d, 0))
  }

  // ---------------------------------------------------------------- when encoding succeeds

  /** Encoding succeeds exactly for fields in range and a payload that fits: 255 bytes in the clear, 239 under a key. */
  lemma EncodeSucceeds(c: BlockCipher, f: Frame, key: Option<seq<Byte>>)
    requires c.Lawful()
    ensures Encode(c, f, key).Ok?
       <==> InRange(f) && match key
                          case None => |f.data| <= 255
                          case Some(k) => |k| == BLOCK && |f.data| <= 239
  {
  }

  /** Why a frame is not encoded: a key of another length, a payload too long for its byte, or the first field that does
      not fit. */
  lemma EncodeFaults(c: BlockCipher, f: Frame, key: Option<seq<Byte>>)
    requires c.Lawful()
    ensures var r, v := Encode(c, f, key), f.version;
            var fits := if key.Some? then |key.value| == 16 && |f.data| <= 239 else |f.data| <= 255;
            var ofByte := 0 <= v.protocolType < 256 && 0 <= v.protocolVersion < 256 && 0 <= v.scene < 256;
            var ofTwo := 0 <= v.groupId < 65536 && 0 <= v.orgId < 65536;
            && (r == Err(BadKey) <==> key.Some? && |key.value| != 16)
            && (r == Err(PayloadTooLong) <==> !fits && (key.Some? ==> |key.value| == 16))
            && (r == Err(NotTwoBytes) <==> fits && ofByte && !ofTwo)
            && (r == Err(NotAByte)
                <==> fits && (!ofByte || (ofTwo && !(0 <= f.command < 256 && 0 <= f.scrambleKey < 256))))
  {
  }

  // ---------------------------------------------------------------- inverses

  /** The bytes of a sealed frame, one by one. */
  lemma SealedLayout(f: Frame, payload: seq<Byte>)
    requires InRange(f) && |payload| <= MAX_DATA_LENGTH
    ensures var raw := Seal(Body(f, payload));
            && Check(raw) == None
            && raw[2] == f.version.protocolType && raw[3] == f.version.protocolVersion && raw[4] == f.version.scene
            && raw[5..7] == ToBigEndian2(f.version.groupId) && raw[7..9] == ToBigEndian2(f.version.orgId)
            && raw[9] == f.command && raw[10] == f.scrambleKey && raw[LENGTH_OFFSET] == |payload|
            && raw[HEADER_LENGTH..HEADER_LENGTH + |payload|] == payload
            && FrameSized(raw)
  {
    var body := Body(f, payload);
    var raw := Seal(body);
    assert raw[..|body|] == body;
    assert body[..2] == MAGIC;
    assert raw[|raw| - 2..] == TERMINATOR;
    assert body[HEADER_LENGTH..] == payload;
  }

  /** What is written for a frame, byte by byte; its payload is the data as it is, or encrypted under the key. */
  lemma EncodedBytes(c: BlockCipher, f: Frame, key: Option<seq<Byte>>)
    requires c.Lawful() && Encode(c, f, key).Ok?
    ensures var raw, payload := Encode(c, f, key).value,
                                if key.Some? then Encrypt(c, key.value, f.data).value else f.data;
            var n := |payload|;
            && |raw| == 15 + n && raw[0] == 0x7F && raw[1] == 0x5A
            && raw[2] == f.version.protocolType && raw[3] == f.version.protocolVersion && raw[4] == f.version.scene
            && raw[5] == f.version.groupId / 256 && raw[6] == f.version.groupId % 256
            && raw[7] == f.version.orgId / 256 && raw[8] == f.version.orgId % 256
            && raw[9] == f.command && raw[10] == f.scrambleKey && raw[11] == n
            && raw[12..12 + n] == payload && raw[12 + n] == Crc(raw[..12 + n])
            && raw[13 + n] == 0x0D && raw[14 + n] == 0x0A
  {
    var payload := Payload(c, f, key).value;
    SealedLayout(f, payload);
    SealedEnds(f, payload);
  }

  lemma SealedEnds(f: Frame, payload: seq<Byte>)
    requires InRange(f) && |payload| <= MAX_DATA_LENGTH
    ensures var raw, n := Seal(Body(f, payload)), |payload|;
            && |raw| == 15 + n && raw[0] == 0x7F && raw[1] == 0x5A
            && raw[5] == f.version.groupId / 256 && raw[6] == f.version.groupId % 256
            && raw[7] == f.version.orgId / 256 && raw[8] == f.version.orgId % 256
            && raw[12 + n] == Crc(raw[..12 + n]) && raw[13 + n] == 0x0D && raw[14 + n] == 0x0A
  {
    var raw, n := Seal(Body(f, payload)), |payload|;
    SealedLayout(f, payload);
    assert raw[..12 + n] == Body(f, payload);
    assert raw[5..7] == [raw[5], raw[6]] && raw[7..9] == [raw[7], raw[8]];
  }

  /** Bytes with a frame's marker, terminator and declared length. */
  predicate Framed(raw: seq<Byte>) {
    && |raw| >= 15 && raw[0] == 0x7F && raw[1] == 0x5A && raw[|raw| - 2] == 0x0D && raw[|raw| - 1] == 0x0A
    && |raw| == 15 + raw[11] as nat
  }

  /** Why bytes are not taken for a frame: each fault exactly when it is the first there is. */
  lemma DecodeFaults(c: BlockCipher, raw: seq<Byte>, key: Option<seq<Byte>>)
    requires c.Lawful()
    ensures var r := Decode(c, raw, key);
            && (r == Err(FrameError(TooShort)) <==> |raw| < 15)
            && (r == Err(FrameError(NoMagic)) <==> |raw| >= 15 && !(raw[0] == 0x7F && raw[1] == 0x5A))
            && (r == Err(FrameError(NoTerminator))
                <==> |raw| >= 15 && raw[0] == 0x7F && raw[1] == 0x5A
                     && !(raw[|raw| - 2] == 0x0D && raw[|raw| - 1] == 0x0A))
            && (r == Err(FrameError(WrongLength))
                <==> |raw| >= 15 && raw[0] == 0x7F && raw[1] == 0x5A
                     && raw[|raw| - 2] == 0x0D && raw[|raw| - 1] == 0x0A && |raw| != 15 + raw[11] as nat)
            && (r == Err(ChecksumError) <==> Framed(raw) && raw[|raw| - 3] != Crc(raw[..|raw| - 3]))
  {
    if |raw| >= 15 {
      MarksAtEnds(raw);
    }
  }

  lemma MarksAtEnds(raw: seq<Byte>)
    requires |raw| >= 2
    ensures raw[..2] == MAGIC <==> raw[0] == 0x7F && raw[1] == 0x5A
    ensures raw[|raw| - 2..] == TERMINATOR <==> raw[|raw| - 2] == 0x0D && raw[|raw| - 1] == 0x0A
  {
    assert raw[..2] == [raw[0], raw[1]];
    assert raw[|raw| - 2..] == [raw[|raw| - 2], raw[|raw| - 1]];
  }

  /** What becomes of a frame whose checksum is right: refused with a scramble key, read as it is without a key or
      without a payload, and else decrypted under the key, which has to have sixteen bytes. */
  lemma DecodeReads(c: BlockCipher, raw: seq<Byte>, key: Option<seq<Byte>>)
    requires c.Lawful() && Framed(raw) && raw[|raw| - 3] == Crc(raw[..|raw| - 3])
    ensures var r, payload := Decode(c, raw, key), raw[12..|raw| - 3];
            && (r == Err(UnsupportedProtocol) <==> raw[10] != 0)
            && (raw[10] == 0 && (key.None? || payload == []) ==> r.Ok? && r.value.data == payload)
            && (raw[10] == 0 && key.Some? && payload != [] ==>
                  && (r == Err(DecryptError)
                      <==> |payload| % 16 != 0 || Decrypt(c, key.value, payload) == Err(BadPadding))
                  && (r == Err(BadDecryptKey) <==> |payload| % 16 == 0 && |key.value| != 16)
                  && (r.Ok? ==> Decrypt(c, key.value, payload) == Ok(r.value.data)))
            && (r.Ok? ==>
                  && r.value.version.protocolType == raw[2] && r.value.version.protocolVersion == raw[3]
                  && r.value.version.scene == raw[4]
                  && r.value.version.groupId == 256 * raw[5] as int + raw[6] as int
                  && r.value.version.orgId == 256 * raw[7] as int + raw[8] as int
                  && r.value.command == raw[9] && r.value.scrambleKey == 0)
  {
    MarksAtEnds(raw);
    assert raw[5..7] == [raw[5], raw[6]] && raw[7..9] == [raw[7], raw[8]];
  }

  lemma LayoutDecodes(c: BlockCipher, raw: seq<Byte>, f: Frame, payload: seq<Byte>, key: Option<seq<Byte>>)
    requires c.Lawful() && InRange(f) && f.scrambleKey == 0 && Check(raw) == None
    requires raw[2] == f.version.protocolType && raw[3] == f.version.protocolVersion && raw[4] == f.version.scene
    requires raw[5..7] == ToBigEndian2(f.version.groupId) && raw[7..9] == ToBigEndian2(f.version.orgId)
    requires raw[9] == f.command && raw[10] == 0
    requires raw[HEADER_LENGTH..HEADER_LENGTH + raw[LENGTH_OFFSET] as nat] == payload
    requires (if key.Some? && payload != [] then Decrypt(c, key.value, payload) else Ok(payload)) == Ok(f.data)
    ensures Decode(c, raw, key) == Ok(f)
  {
  }

  /** Decoding undoes encoding, in the clear and under any key. */
  lemma DecodeEncode(c: BlockCipher, f: Frame, key: Option<seq<Byte>>)
    requires c.Lawful() && Encode(c, f, key).Ok? && f.scrambleKey == 0
    ensures Decode(c, Encode(c, f, key).value, key) == Ok(f)
  {
    var payload := Payload(c, f, key).value;
    SealedLayout(f, payload);
    if key.Some? {
      DecryptEncrypt(c, key.value, f.data);
    }
    LayoutDecodes(c, Seal(Body(f, payload)), f, payload, key);
  }

  /** A frame with a scramble key is refused by the other side. */
  lemma ScrambledIsRefused(c: BlockCipher, f: Frame, key: Option<seq<Byte>>)
    requires c.Lawful() && Encode(c, f, key).Ok? && f.scrambleKey != 0
    ensures Decode(c, Encode(c, f, key).value, key) == Err(UnsupportedProtocol)
  {
    SealedLayout(f, Payload(c, f, key).value);
  }

  /** Bytes that pass the checks are the sealed body of the fields and payload found in them. */
  lemma CheckedIsSealed(raw: seq<Byte>, f: Frame)
    requires Check(raw) == None && InRange(f)
    requires f.version == LockVersion(raw[2], raw[3], raw[4], FromBigEndian2(raw[5..7]), FromBigEndian2(raw[7..9]))
    requires f.command == raw[9] && f.scrambleKey == raw[10]
    ensures Seal(Body(f, raw[HEADER_LENGTH..HEADER_LENGTH + raw[LENGTH_OFFSET] as nat])) == raw
  {
    var n := HEADER_LENGTH + raw[LENGTH_OFFSET] as nat;
    var body := Body(f, raw[HEADER_LENGTH..n]);
    HeaderLayout(raw, f, raw[HEADER_LENGTH..n]);
    assert body == raw[..n];
    assert raw[n + 1..] == TERMINATOR;
    assert raw == raw[..n] + [raw[n]] + raw[n + 1..];
  }

  lemma HeaderLayout(raw: seq<Byte>, f: Frame, payload: seq<Byte>)
    requires |raw| >= HEADER_LENGTH && raw[..2] == MAGIC && InRange(f) && |payload| == raw[LENGTH_OFFSET] as nat
    requires f.version == LockVersion(raw[2], raw[3], raw[4], FromBigEndian2(raw[5..7]), FromBigEndian2(raw[7..9]))
    requires f.command == raw[9] && f.scrambleKey == raw[10]
    ensures Body(f, payload) == raw[..HEADER_LENGTH] + payload
  {
    assert ToBigEndian2(f.version.groupId) == raw[5..7];
    assert ToBigEndian2(f.version.orgId) == raw[7..9];
    assert raw[0] == raw[..2][0] && raw[1] == raw[..2][1];
  }

  /** Whatever decodes without a key encodes back to the same bytes. */
  lemma EncodeDecode(c: BlockCipher, raw: seq<Byte>)
    requires c.Lawful() && Decode(c, raw, None).Ok?
    ensures var f := Decode(c, raw, None).value;
            InRange(f) && f.scrambleKey == 0 && Encode(c, f, None) == Ok(raw)
  {
    CheckedIsSealed(raw, Decode(c, raw, None).value);
  }

  /** The byte strings that decode without a key are exactly the encodings of frames without a scramble key. */
  lemma DecodesIffEncoded(c: BlockCipher, raw: seq<Byte>)
    requires c.Lawful()
    ensures Decode(c, raw, None).Ok? <==> exists f: Frame :: f.scrambleKey == 0 && Encode(c, f, None) == Ok(raw)
  {
    if Decode(c, raw, None).Ok? {
      EncodeDecode(c, raw);
    }
    if f: Frame :| f.scrambleKey == 0 && Encode(c, f, None) == Ok(raw) {
      DecodeEncode(c, f, None);
    }
  }

  /** Under a key, what decodes encodes back to the same bytes exactly when its payload is not empty:
      an empty payload is taken as it is, but is never written. */
  lemma KeyedEncodeDecode(c: BlockCipher, raw: seq<Byte>, key: seq<Byte>)
    requires c.Lawful() && |key| == BLOCK && Decode(c, raw, Some(key)).Ok?
    ensures Encode(c, Decode(c, raw, Some(key)).value, Some(key)) == Ok(raw) <==> raw[LENGTH_OFFSET] != 0
  {
    if raw[LENGTH_OFFSET] != 0 {
      KeyedPayload(c, raw, key);
    } else {
      KeyedEmptyPayload(c, raw, key);
    }
  }

  lemma KeyedPayload(c: BlockCipher, raw: seq<Byte>, key: seq<Byte>)
    requires c.Lawful() && |key| == BLOCK && Decode(c, raw, Some(key)).Ok? && raw[LENGTH_OFFSET] != 0
    ensures Encode(c, Decode(c, raw, Some(key)).value, Some(key)) == Ok(raw)
  {
    var payload := raw[HEADER_LENGTH..HEADER_LENGTH + raw[LENGTH_OFFSET] as nat];
    var f := Decode(c, raw, Some(key)).value;
    EncryptDecrypt(c, key, payload);
    assert Payload(c, f, Some(key)) == Ok(payload);
    CheckedEncodes(c, raw, f, Some(key));
  }

  /** What passes the checks is what its fields and payload encode to. */
  lemma CheckedEncodes(c: BlockCipher, raw: seq<Byte>, f: Frame, key: Option<seq<Byte>>)
    requires c.Lawful() && Check(raw) == None && InRange(f)
    requires f.version == LockVersion(raw[2], raw[3], raw[4], FromBigEndian2(raw[5..7]), FromBigEndian2(raw[7..9]))
    requires f.command == raw[9] && f.scrambleKey == raw[10]
    requires Payload(c, f, key) == Ok(raw[HEADER_LENGTH..HEADER_LENGTH + raw[LENGTH_OFFSET] as nat])
    ensures Encode(c, f, key) == Ok(raw)
  {
    CheckedIsSealed(raw, f);
  }

  lemma KeyedEmptyPayload(c: BlockCipher, raw: seq<Byte>, key: seq<Byte>)
    requires c.Lawful() && |key| == BLOCK && Decode(c, raw, Some(key)).Ok? && raw[LENGTH_OFFSET] == 0
    ensures Encode(c, Decode(c, raw, Some(key)).value, Some(key)) != Ok(raw)
  {
    var f := Decode(c, raw, Some(key)).value;
    assert Encrypt(c, key, f.data).value != [];
    SealedLayout(f, Encrypt(c, key, f.data).value);
  }
}
