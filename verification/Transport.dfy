/** Frames across a link that delivers a byte stream in pieces: what is sent is what arrives. */
module Transport {
  import opened Bytes
  import opened WireFormat
  import opened Cipher
  import opened Frames
  import opened Assembler

  // ---------------------------------------------------------------- splitting writes

  const DEFAULT_MTU := 23
  const ATT_WRITE_OVERHEAD := 3

  /** The most bytes one write may carry; an unknown or zero MTU counts as the default. */
  function WriteSize(mtu: Option<nat>): (size: nat)
    ensures size >= DEFAULT_MTU - ATT_WRITE_OVERHEAD
  {
    var known := if mtu.None? || mtu.value == 0 then DEFAULT_MTU else mtu.value;
    (if known < DEFAULT_MTU then DEFAULT_MTU else known) - ATT_WRITE_OVERHEAD
  }

  /** The writes a payload is split into. */
  function Split(payload: seq<Byte>, size: nat): (chunks: seq<seq<Byte>>)
    requires size > 0
    ensures Concat(chunks) == payload
    ensures forall i :: 0 <= i < |chunks| ==> 0 < |chunks[i]| <= size
    decreases |payload|
  {
    if payload == [] then []
    else if |payload| <= size then [payload]
    else [payload[..size]] + Split(payload[size..], size)
  }

  /** Pieces of a payload for a link whose packets hold `limit` bytes, three of them overhead: none is empty or too
      long, and only the last may be shorter than it could be. */
  predicate Fill(pieces: seq<seq<Byte>>, limit: nat) {
    forall i :: 0 <= i < |pieces| ==>
      && 0 < |pieces[i]| && |pieces[i]| + 3 <= limit
      && (i < |pieces| - 1 ==> |pieces[i]| + 3 == limit)
  }

  /** What a link's packets hold: what it reports, but 23 when it reports less or nothing. */
  function PacketSize(reported: Option<nat>): nat {
    if reported.Some? && reported.value > 23 then reported.value else 23
  }

  lemma {:induction false} SplitFills(payload: seq<Byte>, size: nat)
    requires size > 0
    ensures Fill(Split(payload, size), size + 3)
    decreases |payload|
  {
    if |payload| > size {
      SplitFills(payload[size..], size);
    }
  }

  /** The first pieces of a payload are its beginning, and all of it only when they are all the pieces. */
  lemma SomePieces(pieces: seq<seq<Byte>>, n: nat)
    requires n <= |pieces| && forall i :: 0 <= i < |pieces| ==> 0 < |pieces[i]|
    ensures Concat(pieces[..n]) <= Concat(pieces)
    ensures Concat(pieces[..n]) == Concat(pieces) <==> n == |pieces|
  {
    assert pieces == pieces[..n] + pieces[n..];
    ConcatAppend(pieces[..n], pieces[n..]);
    if n < |pieces| {
      assert Concat(pieces[n..]) == pieces[n] + Concat(pieces[n + 1..]);
    }
  }

  /** A payload is split for the packets of the link it goes over, whatever that reports. */
  lemma WritesFillPackets(payload: seq<Byte>, reported: Option<nat>, n: nat)
    requires n <= |Split(payload, WriteSize(reported))|
    ensures var pieces := Split(payload, WriteSize(reported));
            && Fill(pieces[..n], PacketSize(reported))
            && Concat(pieces[..n]) <= payload && (Concat(pieces[..n]) == payload <==> n == |pieces|)
  {
    SplitFills(payload, WriteSize(reported));
    SomePieces(Split(payload, WriteSize(reported)), n);
  }

  lemma SplitNext(payload: seq<Byte>, size: nat, offset: nat, chunks: seq<seq<Byte>>)
    requires size > 0 && offset < |payload| && chunks == Split(payload[offset..], size)
    ensures var end := if offset + size < |payload| then offset + size else |payload|;
            && chunks != [] && chunks[0] == payload[offset..end]
            && chunks[1..] == Split(payload[end..], size)
  {
    if offset + size < |payload| {
      DropMore(payload, offset, size);
    }
  }

  /** The writes of several payloads, one payload after the other. */
  function SplitAll(payloads: seq<seq<Byte>>, size: nat): (chunks: seq<seq<Byte>>)
    requires size > 0
    ensures Concat(chunks) == Concat(payloads)
  {
    if payloads == [] then []
    else
      ConcatAppend(Split(payloads[0], size), SplitAll(payloads[1..], size));
      Split(payloads[0], size) + SplitAll(payloads[1..], size)
  }

  // ---------------------------------------------------------------- delivery

  /** A frame-sized string and the junk in front of it. */
  datatype Segment = Segment(junk: seq<Byte>, frame: seq<Byte>)

  function Stream(segments: seq<Segment>): seq<Byte> {
    if segments == [] then [] else segments[0].junk + segments[0].frame + Stream(segments[1..])
  }

  function FramesOf(segments: seq<Segment>): (frames: seq<seq<Byte>>)
    ensures |frames| == |segments| && forall i :: 0 <= i < |frames| ==> frames[i] == segments[i].frame
  {
    seq(|segments|, i requires 0 <= i < |segments| => segments[i].frame)
  }

  ghost predicate Clean(segments: seq<Segment>) {
    forall i :: 0 <= i < |segments| ==> MagicFree(segments[i].junk) && FrameSized(segments[i].frame)
  }

  lemma CutOneSegment(junk: seq<Byte>, frame: seq<Byte>, tail: seq<Byte>)
    requires MagicFree(junk) && FrameSized(frame)
    ensures Cut(junk + frame + tail) == Cutting([frame] + Cut(tail).frames, Cut(tail).rest)
  {
    var s, b := junk + frame + tail, frame + tail;
    forall i | 0 <= i < |junk| ensures !MagicAt(s, i) {
      assert !MagicAt(junk, i);
    }
    FirstMagic(s, |junk|);
    assert s[|junk|..] == b;
    SkipToMagic(s);
    CutFirst(b);
    assert b[..|frame|] == frame && b[|frame|..] == tail;
  }

  /** Every frame-sized string in a stream is cut out whole and in order, whatever its other bytes are,
      when only marker-free junk stands between them; what follows them is cut as if it stood alone. */
  lemma {:induction false} CutSegments(segments: seq<Segment>, tail: seq<Byte>)
    requires Clean(segments)
    ensures Cut(Stream(segments) + tail) == Cutting(FramesOf(segments) + Cut(tail).frames, Cut(tail).rest)
  {
    if segments == [] {
      assert [] + tail == tail;
    } else {
      var head, rest := segments[0], segments[1..];
      assert segments == [head] + rest;
      CutSegments(rest, tail);
      CutOneSegment(head.junk, head.frame, Stream(rest) + tail);
      PrependSegment(head, rest, tail);
      FramesAssociate(head.frame, FramesOf(rest), Cut(tail).frames);
    }
  }

  /** The first marker of a string, if it has one, does not have the whole frame it declares behind it. */
  predicate NoWholeFrame(tail: seq<Byte>) {
    var start := Find(tail);
    start != -1 ==> |tail| < start + HEADER_LENGTH || |tail| < start + FrameLength(tail[start..])
  }

  /** A reading of a stream: marker-free junk and frame-sized strings by turns, then a tail with no whole frame. */
  ghost predicate Reading(s: seq<Byte>, segments: seq<Segment>, tail: seq<Byte>) {
    Clean(segments) && s == Stream(segments) + tail && NoWholeFrame(tail)
  }

  /** A stream with a whole frame in it begins with a segment, and the rest is cut by itself. */
  lemma FirstSegment(s: seq<Byte>) returns (head: Segment, rest: seq<Byte>)
    requires !NoWholeFrame(s)
    ensures MagicFree(head.junk) && FrameSized(head.frame) && s == head.junk + head.frame + rest
    ensures Cut(s).frames == [head.frame] + Cut(rest).frames && |rest| < |s|
  {
    var start := Find(s);
    var b := s[start..];
    var n := FrameLength(b);
    SkipToMagic(s);
    CutFirst(b);
    MagicFreePrefix(s, start);
    head, rest := Segment(s[..start], b[..n]), b[n..];
  }

  lemma {:induction false} CutIsReading(s: seq<Byte>) returns (segments: seq<Segment>, tail: seq<Byte>)
    ensures Reading(s, segments, tail) && FramesOf(segments) == Cut(s).frames
    decreases |s|
  {
    if NoWholeFrame(s) {
      segments, tail := [], s;
      assert s == [] + s;
    } else {
      var head, rest := FirstSegment(s);
      segments, tail := CutIsReading(rest);
      PrependSegment(head, segments, tail);
      segments := [head] + segments;
    }
  }

  lemma PrependSegment(head: Segment, segments: seq<Segment>, tail: seq<Byte>)
    requires MagicFree(head.junk) && FrameSized(head.frame) && Clean(segments)
    ensures Clean([head] + segments)
    ensures Stream([head] + segments) + tail == head.junk + head.frame + (Stream(segments) + tail)
    ensures FramesOf([head] + segments) == [head.frame] + FramesOf(segments)
  {
    assert ([head] + segments)[1..] == segments;
  }

  lemma MagicFreePrefix(s: seq<Byte>, n: nat)
    requires n <= |s| && forall i :: 0 <= i < n ==> !MagicAt(s, i)
    ensures MagicFree(s[..n])
  {
    forall i ensures !MagicAt(s[..n], i) {
      assert 0 <= i < n ==> !MagicAt(s, i);
    }
  }

  /** The frames handed out for a stream are those of its one and only reading. */
  lemma FramesAreTheReading(s: seq<Byte>, frames: seq<seq<Byte>>)
    ensures Cut(s).frames == frames
       <==> exists segments, tail :: Reading(s, segments, tail) && FramesOf(segments) == frames
  {
    var segments, tail := CutIsReading(s);
    if exists segments, tail :: Reading(s, segments, tail) && FramesOf(segments) == frames {
      var segments', tail' :| Reading(s, segments', tail') && FramesOf(segments') == frames;
      CutSegments(segments', tail');
      assert Cut(tail').frames == [];
    }
  }

  /** Frames serialised one by one; each keeps the scramble key zero, as the locks spoken to do. */
  ghost predicate Serialised(c: BlockCipher, frames: seq<Frame>, key: Option<seq<Byte>>, raws: seq<seq<Byte>>)
    requires c.Lawful()
  {
    && |raws| == |frames|
    && forall i :: 0 <= i < |frames| ==> frames[i].scrambleKey == 0 && Encode(c, frames[i], key) == Ok(raws[i])
  }

  /** Junk in front of the first frame only. */
  function Led(junk: seq<Byte>, raws: seq<seq<Byte>>): (segments: seq<Segment>)
    ensures |segments| == |raws|
    ensures forall i :: 0 <= i < |raws| ==> segments[i] == Segment(if i == 0 then junk else [], raws[i])
  {
    seq(|raws|, i requires 0 <= i < |raws| => Segment(if i == 0 then junk else [], raws[i]))
  }

  lemma {:induction false} StreamOfLed(junk: seq<Byte>, raws: seq<seq<Byte>>)
    requires raws != []
    ensures Stream(Led(junk, raws)) == junk + Concat(raws)
    decreases |raws|
  {
    var segments := Led(junk, raws);
    if |raws| == 1 {
      assert segments == [Segment(junk, raws[0])];
      assert segments[1..] == [] && raws[1..] == [];
    } else {
      StreamOfLed([], raws[1..]);
      assert segments[1..] == Led([], raws[1..]);
      assert [] + Concat(raws[1..]) == Concat(raws[1..]);
    }
  }

  /** Whatever arrives in place of the frames sent, if each string is still frame-sized, comes out as it arrived. */
  lemma DeliveryOfSized(junk: seq<Byte>, raws: seq<seq<Byte>>, chunks: seq<seq<Byte>>)
    requires MagicFree(junk) && forall i :: 0 <= i < |raws| ==> FrameSized(raws[i])
    requires Concat(chunks) == junk + Concat(raws)
    ensures FeedChunks([], chunks).frames == raws
    ensures raws != [] ==> FeedChunks([], chunks).rest == []
  {
    ChunkingInvariance([], chunks);
    assert [] + Concat(chunks) == Concat(chunks);
    if raws == [] {
      assert Concat(chunks) == junk;
      assert Find(junk) == -1;
    } else {
      StreamOfLed(junk, raws);
      CutSegments(Led(junk, raws), []);
      assert FramesOf(Led(junk, raws)) + [] == raws;
      assert Stream(Led(junk, raws)) + [] == Concat(chunks);
    }
  }

  lemma SerialisedIsSized(c: BlockCipher, f: Frame, key: Option<seq<Byte>>)
    requires c.Lawful() && Encode(c, f, key).Ok?
    ensures FrameSized(Encode(c, f, key).value)
  {
    SealedLayout(f, Payload(c, f, key).value);
  }

  /** End to end: frames encoded, led by marker-free junk, cut into pieces in any way and fed to a fresh
      assembler come out as they were encoded, decode to what was sent, and leave nothing behind. */
  lemma EndToEnd(c: BlockCipher, frames: seq<Frame>, key: Option<seq<Byte>>, raws: seq<seq<Byte>>,
                 junk: seq<Byte>, chunks: seq<seq<Byte>>)
    requires c.Lawful() && Serialised(c, frames, key, raws) && MagicFree(junk)
    requires Concat(chunks) == junk + Concat(raws)
    ensures FeedChunks([], chunks).frames == raws
    ensures raws != [] ==> FeedChunks([], chunks).rest == []
    ensures forall i :: 0 <= i < |frames| ==> Decode(c, raws[i], key) == Ok(frames[i])
  {
    forall i | 0 <= i < |raws| ensures FrameSized(raws[i]) && Decode(c, raws[i], key) == Ok(frames[i]) {
      SerialisedIsSized(c, frames[i], key);
      DecodeEncode(c, frames[i], key);
    }
    DeliveryOfSized(junk, raws, chunks);
  }

  /** In particular for the pieces the writes at any MTU produce. */
  lemma EndToEndAtMtu(c: BlockCipher, frames: seq<Frame>, key: Option<seq<Byte>>, raws: seq<seq<Byte>>,
                      junk: seq<Byte>, mtu: Option<nat>)
    requires c.Lawful() && Serialised(c, frames, key, raws) && MagicFree(junk)
    ensures FeedChunks([], [junk] + SplitAll(raws, WriteSize(mtu))).frames == raws
    ensures raws != [] ==> FeedChunks([], [junk] + SplitAll(raws, WriteSize(mtu))).rest == []
    ensures forall i :: 0 <= i < |frames| ==> Decode(c, raws[i], key) == Ok(frames[i])
  {
    var chunks := SplitAll(raws, WriteSize(mtu));
    assert ([junk] + chunks)[1..] == chunks;
    EndToEnd(c, frames, key, raws, junk, [junk] + chunks);
  }

  /** One frame damaged on the way, outside its marker and its length byte, does not disturb the others. */
  lemma DamagedFrameDoesNotDesynchronise(c: BlockCipher, frames: seq<Frame>, key: Option<seq<Byte>>,
      raws: seq<seq<Byte>>, junk: seq<Byte>, hit: nat, damaged: seq<Byte>, chunks: seq<seq<Byte>>)
    requires c.Lawful() && Serialised(c, frames, key, raws) && MagicFree(junk)
    requires hit < |raws| && |damaged| == |raws[hit]|
    requires forall k :: k == 0 || k == 1 || k == LENGTH_OFFSET ==>
               0 <= k < |damaged| && 0 <= k < |raws[hit]| && damaged[k] == raws[hit][k]
    requires Concat(chunks) == junk + Concat(raws[hit := damaged])
    ensures FeedChunks([], chunks) == Cutting(raws[hit := damaged], [])
    ensures forall i :: 0 <= i < |frames| && i != hit ==>
              Decode(c, FeedChunks([], chunks).frames[i], key) == Ok(frames[i])
  {
    forall i | 0 <= i < |raws|
      ensures FrameSized(raws[hit := damaged][i]) && Decode(c, raws[i], key) == Ok(frames[i])
    {
      SerialisedIsSized(c, frames[i], key);
      DecodeEncode(c, frames[i], key);
      if i == hit {
        assert 0 == 0 && 1 == 1 && LENGTH_OFFSET == LENGTH_OFFSET;
        assert MagicAt(raws[hit], 0);
      }
    }
    DeliveryOfSized(junk, raws[hit := damaged], chunks);
  }

  // ---------------------------------------------------------------- resynchronisation

  /** Whatever valid frames follow `start`, exactly they are handed out: nothing after it is lost and nothing is made
      of its own bytes. */
  ghost predicate Resynchronises(c: BlockCipher, start: seq<Byte>)
    requires c.Lawful()
  {
    forall raws: seq<seq<Byte>> ::
      (forall i :: 0 <= i < |raws| ==> Decode(c, raws[i], None).Ok?) ==> Cut(start + Concat(raws)).frames == raws
  }

  function SmallestFrame(): Frame {
    Frame(LockVersion(0, 0, 0, 0, 0), 0, [], 0)
  }

  /** That holds exactly for a start without the marker in it. */
  lemma ResynchronisesIff(c: BlockCipher, start: seq<Byte>)
    requires c.Lawful()
    ensures Resynchronises(c, start) <==> MagicFree(start)
  {
    if MagicFree(start) {
      forall raws: seq<seq<Byte>> | forall i :: 0 <= i < |raws| ==> Decode(c, raws[i], None).Ok?
        ensures Cut(start + Concat(raws)).frames == raws
      {
        MagicFreeStart(c, start, raws);
      }
    } else if Cut(start).frames != [] {
      assert start + Concat([]) == start;
    } else {
      var raw := SmallestRaw(c);
      StrayMarkerLosesFrame(start, raw);
      ConcatOne(raw);
    }
  }

  /** The promise that starting mid-frame costs no frame after it: whatever valid frames follow `start`, they are
      handed out behind those cut from `start` itself. */
  ghost predicate LosesNothing(c: BlockCipher, start: seq<Byte>)
    requires c.Lawful()
  {
    forall raws: seq<seq<Byte>> ::
      (forall i :: 0 <= i < |raws| ==> Decode(c, raws[i], None).Ok?) ==>
        Cut(start + Concat(raws)).frames == Cut(start).frames + raws
  }

  /** It holds exactly for a start that leaves no marker in the buffer. */
  lemma LosesNothingIff(c: BlockCipher, start: seq<Byte>)
    requires c.Lawful()
    ensures LosesNothing(c, start) <==> MagicFree(Cut(start).rest)
  {
    var rest := Cut(start).rest;
    forall raws: seq<seq<Byte>>
      ensures Cut(start + Concat(raws)).frames == Cut(start).frames + raws <==> Cut(rest + Concat(raws)).frames == raws
    {
      CutAppend(start, Concat(raws));
      SameTail(Cut(start).frames, Cut(rest + Concat(raws)).frames, raws);
    }
    assert LosesNothing(c, start) <==> Resynchronises(c, rest);
    ResynchronisesIff(c, rest);
  }

  lemma SameTail<T>(a: seq<T>, b: seq<T>, c: seq<T>)
    ensures a + b == a + c <==> b == c
  {
    if a + b == a + c {
      assert b == (a + b)[|a|..] && c == (a + c)[|a|..];
    }
  }

  lemma MagicFreeStart(c: BlockCipher, start: seq<Byte>, raws: seq<seq<Byte>>)
    requires c.Lawful() && MagicFree(start)
    requires forall i :: 0 <= i < |raws| ==> Decode(c, raws[i], None).Ok?
    ensures Cut(start + Concat(raws)).frames == raws
  {
    if raws == [] {
      assert start + [] == start;
      assert Find(start) == -1;
    } else {
      forall i | 0 <= i < |raws| ensures FrameSized(raws[i]) {
        assert raws[i][..2] == MAGIC;
        assert raws[i][0] == MAGIC[0] && raws[i][1] == MAGIC[1];
      }
      StreamOfLed(start, raws);
      CutSegments(Led(start, raws), []);
      assert FramesOf(Led(start, raws)) + [] == raws;
      assert Stream(Led(start, raws)) + [] == start + Concat(raws);
    }
  }

  lemma SmallestRaw(c: BlockCipher) returns (raw: seq<Byte>)
    requires c.Lawful()
    ensures Decode(c, raw, None).Ok? && |raw| == 15
    ensures raw[0] == 0x7F && raw[1] == 0x5A && raw[13] == 0x0D && raw[14] == 0x0A
    ensures forall i :: 2 <= i < 12 ==> raw[i] == 0
  {
    raw := Encode(c, SmallestFrame(), None).value;
    DecodeEncode(c, SmallestFrame(), None);
    SmallestSealed();
  }

  lemma SmallestSealed()
    ensures var raw := Seal(Body(SmallestFrame(), []));
            && |raw| == 15 && raw[0] == 0x7F && raw[1] == 0x5A && raw[13] == 0x0D && raw[14] == 0x0A
            && forall i :: 2 <= i < 12 ==> raw[i] == 0
  {
    SealedLayout(SmallestFrame(), []);
    var raw := Seal(Body(SmallestFrame(), []));
    assert raw[5] == raw[5..7][0] && raw[6] == raw[5..7][1] && raw[7] == raw[7..9][0] && raw[8] == raw[7..9][1];
    assert raw[13] == TERMINATOR[0] && raw[14] == TERMINATOR[1];
  }

  /** A marker in the start, with nothing cut yet, swallows bytes of the frame that follows. */
  lemma StrayMarkerLosesFrame(start: seq<Byte>, raw: seq<Byte>)
    requires !MagicFree(start) && Cut(start).frames == []
    requires |raw| == 15 && raw[0] == 0x7F && raw[1] == 0x5A && raw[13] == 0x0D && raw[14] == 0x0A
    requires forall i :: 2 <= i < 12 ==> raw[i] == 0
    ensures Cut(start + raw).frames != [raw]
  {
    CutAppend(start, raw);
    var held := Cut(start).rest;
    assert held == start[Find(start)..] && MagicAt(held, 0);
    var b := held + raw;
    assert [] + Cut(b).frames == Cut(b).frames;
    FirstMagic(b, 0);
    assert b[0..] == b;
    if |b| >= HEADER_LENGTH && |b| >= FrameLength(b) {
      CutFirst(b);
      assert Cut(b).frames[0] == b[..FrameLength(b)];
      if FrameLength(b) == 15 {
        assert |held| < 15 by { assert |held| >= HEADER_LENGTH ==> FrameLength(held) == 15; }
        FrameIsNotItsOwnShift(held, raw);
      }
    }
  }

  lemma FrameIsNotItsOwnShift(held: seq<Byte>, raw: seq<Byte>)
    requires 2 <= |held| < 15
    requires |raw| == 15 && raw[0] == 0x7F && raw[1] == 0x5A && raw[13] == 0x0D && raw[14] == 0x0A
    requires forall i :: 2 <= i < 12 ==> raw[i] == 0
    ensures (held + raw)[..15] != raw
  {
    var d := |held|;
    assert (held + raw)[..15][d] == raw[0];
    if d == 12 {
      assert (held + raw)[..15][d + 1] == raw[1];
    }
  }

  /** A frame whose payload looks like a header that declares 255 bytes. */
  function HeaderInside(): Frame {
    Frame(LockVersion(0, 0, 0, 0, 0), 0, MAGIC + Repeat(0, 9) + [0xFF], 0)
  }

  lemma HeaderInsideSealed()
    ensures var whole := Seal(Body(HeaderInside(), HeaderInside().data));
            && |whole| == 27 && MagicAt(whole, HEADER_LENGTH) && whole[HEADER_LENGTH + LENGTH_OFFSET] == 0xFF
  {
    var data := HeaderInside().data;
    SealedLayout(HeaderInside(), data);
    var whole := Seal(Body(HeaderInside(), data));
    assert whole[HEADER_LENGTH..HEADER_LENGTH + |data|] == data;
    assert data[0] == whole[HEADER_LENGTH] && data[1] == whole[HEADER_LENGTH + 1];
    assert data[LENGTH_OFFSET] == whole[HEADER_LENGTH + LENGTH_OFFSET];
  }

  /** Bytes that start with a header are handed out as one frame once as many have come as it declares. */
  lemma HeaderTakesAll(held: seq<Byte>)
    requires MagicAt(held, 0) && |held| >= HEADER_LENGTH && |held| == FrameLength(held)
    ensures Cut(held) == Cutting([held], [])
  {
    FirstMagic(held, 0);
    assert held[0..] == held && held[..|held|] == held && held[|held|..] == [];
    assert Find([]) == -1;
  }

  /** Starting in the middle of a valid frame can cost seventeen whole frames after it: taken for one long frame
      with what was left of the first, none of them is handed out. */
  lemma StartingMidFrameCostsSeventeenFrames(c: BlockCipher, frames: seq<seq<Byte>>) returns (whole: seq<Byte>, at: nat)
    requires c.Lawful() && |frames| == 17 && forall i :: 0 <= i < 17 ==> |frames[i]| == 15
    ensures Decode(c, whole, None).Ok? && 0 < at < |whole|
    ensures Cut(whole[at..] + Concat(frames)) == Cutting([whole[at..] + Concat(frames)], [])
  {
    whole, at := Encode(c, HeaderInside(), None).value, HEADER_LENGTH;
    DecodeEncode(c, HeaderInside(), None);
    HeaderInsideSealed();
    ConcatLength(frames, 15);
    HeaderTakesAll(whole[at..] + Concat(frames));
  }

  lemma ConcatLength(parts: seq<seq<Byte>>, n: nat)
    requires forall i :: 0 <= i < |parts| ==> |parts[i]| == n
    ensures |Concat(parts)| == n * |parts|
  {
    if parts != [] {
      ConcatLength(parts[1..], n);
    }
  }
}
