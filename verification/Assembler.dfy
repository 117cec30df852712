/** Cutting a byte stream, delivered in arbitrary pieces, into whole frames. */
module Assembler {
  import opened Bytes
  import opened WireFormat

  /** The first start-of-frame marker at or after `from`, or -1. */
  function FindFrom(s: seq<Byte>, from: nat): (start: int)
    requires from <= |s|
    ensures start == -1 ==> forall i :: from <= i ==> !MagicAt(s, i)
    ensures start != -1 ==> from <= start && MagicAt(s, start) && forall i :: from <= i < start ==> !MagicAt(s, i)
    decreases |s| - from
  {
    if from == |s| then -1 else if MagicAt(s, from) then from else FindFrom(s, from + 1)
  }

  function Find(s: seq<Byte>): int {
    FindFrom(s, 0)
  }

  lemma FirstMagic(s: seq<Byte>, k: nat)
    requires MagicAt(s, k) && forall i :: 0 <= i < k ==> !MagicAt(s, i)
    ensures Find(s) == k
  {
  }

  datatype Cutting = Cutting(frames: seq<seq<Byte>>, rest: seq<Byte>)

  /** The frames in a stream, in order, and the tail to keep for later. */
  function Cut(s: seq<Byte>): (c: Cutting)
    decreases |s|
  {
    var start := Find(s);
    if start == -1 then Cutting([], if s == [] then [] else s[|s| - 1..])
    else
      var b := s[start..];
      if |b| < HEADER_LENGTH || |b| < FrameLength(b) then Cutting([], b)
      else
        var tail := Cut(b[FrameLength(b)..]);
        Cutting([b[..FrameLength(b)]] + tail.frames, tail.rest)
  }

  /** The length a buffer's first frame declares. */
  function FrameLength(b: seq<Byte>): (n: nat)
    requires |b| >= HEADER_LENGTH
  {
    HEADER_LENGTH + b[LENGTH_OFFSET] as nat + TRAILER_LENGTH
  }

  class FrameAssembler {
    var buffer: seq<Byte>

    constructor ()
      ensures buffer == []
    {
      buffer := [];
    }

    method Reset()
      modifies this
      ensures buffer == []
    {
      buffer := [];
    }

    method Feed(chunk: seq<Byte>) returns (frames: seq<seq<Byte>>)
      modifies this
      ensures Cutting(frames, buffer) == Cut(old(buffer) + chunk)
    {
      buffer := buffer + chunk;
      frames := [];
      ghost var whole := Cut(buffer);
      while true
        invariant whole == Cutting(frames + Cut(buffer).frames, Cut(buffer).rest)
        decreases |buffer|
      {
        var start := Find(buffer);
        if start == -1 {
          buffer := buffer[if |buffer| == 0 then 0 else |buffer| - 1..];
          break;
        }
        ghost var before := buffer;
        buffer := buffer[start..];
        if |buffer| < HEADER_LENGTH {
          break;
        }
        var total := HEADER_LENGTH + buffer[LENGTH_OFFSET] as nat + TRAILER_LENGTH;
        if |buffer| < total {
          break;
        }
        assert Cut(before).frames == [buffer[..total]] + Cut(buffer[total..]).frames;
        frames := frames + [buffer[..total]];
        buffer := buffer[total..];
      }
    }
  }

  // ---------------------------------------------------------------- chunking invariance

  /** Nothing more can be cut from what a cut leaves, and it is shorter than one longest frame. */
  lemma {:induction false} RestIsSettled(s: seq<Byte>)
    ensures Cut(Cut(s).rest) == Cutting([], Cut(s).rest)
    ensures |Cut(s).rest| < MAX_FRAME_LENGTH
    decreases |s|
  {
    var start := Find(s);
    if start != -1 {
      var b := s[start..];
      if |b| < HEADER_LENGTH || |b| < FrameLength(b) {
        assert MagicAt(b, 0);
        FirstMagic(b, 0);
        assert b[0..] == b;
      } else {
        RestIsSettled(b[FrameLength(b)..]);
      }
    }
  }

  /** Bytes in front of the first marker play no part. */
  lemma SkipToMagic(s: seq<Byte>)
    requires Find(s) != -1
    ensures Cut(s) == Cut(s[Find(s)..])
  {
    var b := s[Find(s)..];
    assert MagicAt(b, 0);
    FirstMagic(b, 0);
    assert b[0..] == b;
  }

  /** A whole frame at the front is handed out first. */
  lemma CutFirst(b: seq<Byte>)
    requires MagicAt(b, 0) && |b| >= HEADER_LENGTH && |b| >= FrameLength(b)
    ensures var tail := Cut(b[FrameLength(b)..]);
            Cut(b) == Cutting([b[..FrameLength(b)]] + tail.frames, tail.rest)
  {
    FirstMagic(b, 0);
    assert b[0..] == b;
  }

  lemma SuffixFind(s: seq<Byte>, k: nat)
    requires k <= |s| && forall i :: 0 <= i < k ==> !MagicAt(s, i)
    ensures Find(s) == if Find(s[k..]) == -1 then -1 else Find(s[k..]) + k
  {
    var t := s[k..];
    assert forall i :: 0 <= i ==> MagicAt(t, i) == MagicAt(s, i + k);
    if Find(s) != -1 {
      assert MagicAt(t, Find(s) - k);
    }
    if Find(t) != -1 {
      forall i | 0 <= i < Find(t) + k ensures !MagicAt(s, i) {
        assert i < k || !MagicAt(t, i - k);
      }
      FirstMagic(s, Find(t) + k);
    }
  }

  /** Bytes in front of which no frame starts can be dropped before cutting. */
  lemma DropMagicFree(s: seq<Byte>, k: nat)
    requires k < |s| && forall i :: 0 <= i < k ==> !MagicAt(s, i)
    ensures Cut(s) == Cut(s[k..])
  {
    SuffixFind(s, k);
    var t := s[k..];
    if Find(s) == -1 {
      assert s[|s| - 1..] == t[|t| - 1..];
    } else {
      SkipToMagic(s);
      SkipToMagic(t);
      assert s[Find(s)..] == t[Find(t)..];
    }
  }

  /** Cutting a stream is cutting its first part and then what that left together with the second part. */
  lemma {:induction false} CutAppend(x: seq<Byte>, y: seq<Byte>)
    ensures var first := Cut(x);
            var second := Cut(first.rest + y);
            Cut(x + y) == Cutting(first.frames + second.frames, second.rest)
    decreases |x|
  {
    var start := Find(x);
    if start == -1 {
      CutAppendNoMagic(x, y);
    } else {
      var b := x[start..];
      FindInAppend(x, y);
      SkipToMagic(x + y);
      if |b| < HEADER_LENGTH || |b| < FrameLength(b) {
        var first := Cut(x);
        assert first == Cutting([], b);
      } else {
        var n := FrameLength(b);
        CutAppend(b[n..], y);
        CutAppendFrame(b, y);
        SkipToMagic(x);
      }
    }
  }

  lemma CutAppendFrame(b: seq<Byte>, y: seq<Byte>)
    requires MagicAt(b, 0) && |b| >= HEADER_LENGTH && |b| >= FrameLength(b)
    requires var first := Cut(b[FrameLength(b)..]);
             var second := Cut(first.rest + y);
             Cut(b[FrameLength(b)..] + y) == Cutting(first.frames + second.frames, second.rest)
    ensures var first := Cut(b);
            var second := Cut(first.rest + y);
            Cut(b + y) == Cutting(first.frames + second.frames, second.rest)
  {
    var n := FrameLength(b);
    AppendSplits(b, y, n);
    CutFirst(b);
    CutFirst(b + y);
    FramesAssociate(b[..n], Cut(b[n..]).frames, Cut(Cut(b[n..]).rest + y).frames);
  }

  lemma FramesAssociate(f: seq<Byte>, a: seq<seq<Byte>>, c: seq<seq<Byte>>)
    ensures [f] + (a + c) == ([f] + a) + c
  {
  }

  lemma AppendSplits(b: seq<Byte>, y: seq<Byte>, n: nat)
    requires n <= |b|
    ensures (b + y)[..n] == b[..n] && (b + y)[n..] == b[n..] + y
  {
  }

  lemma CutAppendNoMagic(x: seq<Byte>, y: seq<Byte>)
    requires Find(x) == -1
    ensures Cut(x).frames == [] && Cut(x + y) == Cut(Cut(x).rest + y)
  {
    if x == [] {
      assert x + y == y;
    } else {
      forall i | 0 <= i < |x| - 1 ensures !MagicAt(x + y, i) {
        assert !MagicAt(x, i);
      }
      DropMagicFree(x + y, |x| - 1);
      assert (x + y)[|x| - 1..] == x[|x| - 1..] + y;
    }
  }

  lemma FindInAppend(x: seq<Byte>, y: seq<Byte>)
    requires Find(x) != -1
    ensures Find(x + y) == Find(x) && (x + y)[Find(x)..] == x[Find(x)..] + y
  {
    forall i | 0 <= i < Find(x) ensures !MagicAt(x + y, i) {
      assert !MagicAt(x, i);
    }
    FirstMagic(x + y, Find(x));
  }

  /** What feeding pieces one after the other to an assembler holding `buffer` hands out and keeps. */
  function FeedChunks(buffer: seq<Byte>, chunks: seq<seq<Byte>>): (c: Cutting)
    decreases |chunks|
  {
    if chunks == [] then Cutting([], buffer)
    else
      var first := Cut(buffer + chunks[0]);
      var later := FeedChunks(first.rest, chunks[1..]);
      Cutting(first.frames + later.frames, later.rest)
  }

  lemma NextChunk(buffer: seq<Byte>, chunks: seq<seq<Byte>>, i: nat)
    requires i < |chunks|
    ensures var first := Cut(buffer + chunks[i]);
            var later := FeedChunks(first.rest, chunks[i + 1..]);
            FeedChunks(buffer, chunks[i..]) == Cutting(first.frames + later.frames, later.rest)
  {
    assert chunks[i..][0] == chunks[i] && chunks[i..][1..] == chunks[i + 1..];
  }

  method FeedEach(assembler: FrameAssembler, chunks: seq<seq<Byte>>) returns (frames: seq<seq<Byte>>)
    modifies assembler
    ensures Cutting(frames, assembler.buffer) == FeedChunks(old(assembler.buffer), chunks)
  {
    frames := [];
    ghost var whole := FeedChunks(assembler.buffer, chunks);
    assert chunks[0..] == chunks;
    for i := 0 to |chunks|
      invariant whole.frames == frames + FeedChunks(assembler.buffer, chunks[i..]).frames
      invariant whole.rest == FeedChunks(assembler.buffer, chunks[i..]).rest
    {
      NextChunk(assembler.buffer, chunks, i);
      var more := assembler.Feed(chunks[i]);
      ConcatAssociates(frames, more, FeedChunks(assembler.buffer, chunks[i + 1..]).frames);
      frames := frames + more;
    }
  }

  /** However a stream is cut into pieces, the frames handed out and the bytes kept are those of the whole stream. */
  lemma {:induction false} ChunkingInvariance(buffer: seq<Byte>, chunks: seq<seq<Byte>>)
    requires Cut(buffer) == Cutting([], buffer)
    ensures FeedChunks(buffer, chunks) == Cut(buffer + Concat(chunks))
    decreases |chunks|
  {
    if chunks == [] {
      NoChunks(buffer);
    } else {
      RestIsSettled(buffer + chunks[0]);
      ChunkingInvariance(Cut(buffer + chunks[0]).rest, chunks[1..]);
      FirstChunk(buffer, chunks);
    }
  }

  lemma NoChunks(buffer: seq<Byte>)
    requires Cut(buffer) == Cutting([], buffer)
    ensures FeedChunks(buffer, []) == Cut(buffer + Concat([]))
  {
    var nothing: seq<Byte> := Concat([]);
    AppendNothing(buffer, nothing);
  }

  lemma AppendNothing(a: seq<Byte>, nothing: seq<Byte>)
    requires nothing == []
    ensures a + nothing == a
  {
  }

  lemma FirstChunk(buffer: seq<Byte>, chunks: seq<seq<Byte>>)
    requires chunks != []
    requires var rest := Cut(buffer + chunks[0]).rest; FeedChunks(rest, chunks[1..]) == Cut(rest + Concat(chunks[1..]))
    ensures FeedChunks(buffer, chunks) == Cut(buffer + Concat(chunks))
  {
    CutAppend(buffer + chunks[0], Concat(chunks[1..]));
    ConcatAssociates(buffer, chunks[0], Concat(chunks[1..]));
  }

  lemma ConcatAssociates<T>(a: seq<T>, b: seq<T>, c: seq<T>)
    ensures a + (b + c) == (a + b) + c
  {
  }
}
