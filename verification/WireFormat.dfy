/** The constants every part of the TTLock Bluetooth wire format shares. */
module WireFormat {
  import opened Bytes

  /** Start-of-frame marker. */
  const MAGIC: seq<Byte> := [0x7F, 0x5A]

  /** CR and LF, the last two bytes of every frame. */
  const TERMINATOR: seq<Byte> := [0x0D, 0x0A]

  const HEADER_LENGTH := 12
  const TRAILER_LENGTH := 3
  const LENGTH_OFFSET := 11
  const MAX_DATA_LENGTH := 0xFF
  const MAX_FRAME_LENGTH := HEADER_LENGTH + MAX_DATA_LENGTH + TRAILER_LENGTH

  predicate MagicAt(s: seq<Byte>, i: int) {
    0 <= i < |s| - 1 && s[i] == MAGIC[0] && s[i + 1] == MAGIC[1]
  }

  ghost predicate MagicFree(s: seq<Byte>) {
    forall i :: !MagicAt(s, i)
  }

  /** A byte string laid out like exactly one frame: it starts with the marker and is as long as it declares. */
  predicate FrameSized(s: seq<Byte>) {
    MagicAt(s, 0) && |s| >= HEADER_LENGTH && |s| == HEADER_LENGTH + s[LENGTH_OFFSET] as nat + TRAILER_LENGTH
  }
}
