/** The one-at-a-time request and response conversation over an open connection. */
module SessionProtocol {
  import opened Bytes
  import opened WireFormat
  import opened Cipher
  import opened Frames
  import opened Assembler
  import opened Transport

  /** Where a call of `execute` stands. */
  datatype Phase = Queued | Writing | Awaiting | Returned(raw: seq<Byte>) | Failed

  /** One frame cut from the stream and the request it answered, if any. */
  datatype Entry = Entry(frame: seq<Byte>, to: Option<nat>)

  /** What can happen between two suspension points, for calls numbered in the order they are made. */
  datatype Event =
    | Call(id: nat)
    | Begin(id: nat)       // the turn is acquired: reset, new future, first write
    | Written(id: nat)     // the last write went out
    | Return(id: nat)      // the future's result is taken up
    | Fail(id: nat)        // a failed write, a timeout or a cancellation
    | Notify(data: seq<Byte>)

  /** `holder`, `pending`, `buffer`, `futures` and `phases` are the session's state. `heard` and `log` are
      history: the bytes notified during each request's turn, and every frame cut, in order. */
  datatype Session = Session(
    holder: Option<nat>,
    pending: Option<nat>,
    buffer: seq<Byte>,
    futures: map<nat, Option<seq<Byte>>>,
    phases: map<nat, Phase>,
    heard: map<nat, seq<Byte>>,
    log: seq<Entry>)

  const FRESH := Session(None, None, [], map[], map[], map[], [])

  predicate InPhase(s: Session, id: nat, phase: Phase) {
    id in s.phases && s.phases[id] == phase
  }

  predicate InTurn(s: Session, id: nat) {
    InPhase(s, id, Writing) || InPhase(s, id, Awaiting)
  }

  predicate Enabled(s: Session, e: Event) {
    match e
    case Call(id) => id !in s.phases
    case Begin(id) => InPhase(s, id, Queued) && s.holder.None?
    case Written(id) => InPhase(s, id, Writing)
    case Return(id) => InPhase(s, id, Awaiting) && id in s.futures && s.futures[id].Some?
    case Fail(id) => InTurn(s, id) || InPhase(s, id, Queued)
    case Notify(_) => true
  }

  function Resolve(futures: map<nat, Option<seq<Byte>>>, pending: Option<nat>, frames: seq<seq<Byte>>):
    map<nat, Option<seq<Byte>>>
  {
    if pending.Some? && pending.value in futures && futures[pending.value].None? && frames != []
    then futures[pending.value := Some(frames[0])]
    else futures
  }

  /** Where a batch of frames goes: the first one to an unanswered request, the others nowhere. */
  function Entries(frames: seq<seq<Byte>>, to: Option<nat>): (entries: seq<Entry>)
    ensures |entries| == |frames|
    ensures forall i :: 0 <= i < |frames| ==> entries[i] == Entry(frames[i], if i == 0 then to else None)
  {
    seq(|frames|, i requires 0 <= i < |frames| => Entry(frames[i], if i == 0 then to else None))
  }

  function Unanswered(s: Session): Option<nat> {
    if s.pending.Some? && s.pending.value in s.futures && s.futures[s.pending.value].None? then s.pending else None
  }

  function Step(s: Session, e: Event): Session {
    if !Enabled(s, e) then s
    else
      match e
      case Call(id) => s.(phases := s.phases[id := Queued])
      case Begin(id) =>
        s.(holder := Some(id), pending := Some(id), buffer := [], futures := s.futures[id := None],
           phases := s.phases[id := Writing], heard := s.heard[id := []])
      case Written(id) => s.(phases := s.phases[id := Awaiting])
      case Return(id) => s.(holder := None, pending := None, phases := s.phases[id := Returned(s.futures[id].value)])
      case Fail(id) =>
        if InTurn(s, id) then s.(holder := None, pending := None, phases := s.phases[id := Failed])
        else s.(phases := s.phases[id := Failed])
      case Notify(data) =>
        Notified(s, data, Cut(s.buffer + data))
  }

  /** The session after the notified bytes have been cut into `c`. */
  function Notified(s: Session, data: seq<Byte>, c: Cutting): Session {
    s.(buffer := c.rest,
       futures := Resolve(s.futures, s.pending, c.frames),
       heard := if s.holder.Some? && s.holder.value in s.heard
                then s.heard[s.holder.value := s.heard[s.holder.value] + data] else s.heard,
       log := s.log + Entries(c.frames, Unanswered(s)))
  }

  /** The state after any sequence of events, those not possible when they come being left out. */
  function Run(events: seq<Event>): Session {
    if events == [] then FRESH else Step(Run(events[..|events| - 1]), events[|events| - 1])
  }

  // ---------------------------------------------------------------- what every step keeps

  /** Only the turn's holder is between beginning and end, and only its future is pending. */
  ghost predicate OneAtATime(s: Session) {
    && s.pending == s.holder
    && (forall id: nat :: InTurn(s, id) <==> s.holder == Some(id))
    && (forall id :: id in s.futures ==> id in s.phases && !s.phases[id].Queued?)
    && s.futures.Keys == s.heard.Keys
    && (s.holder.Some? ==> s.holder.value in s.futures)
  }

  function FirstFrame(stream: seq<Byte>): Option<seq<Byte>> {
    var frames := Cut(stream).frames;
    if frames == [] then None else Some(frames[0])
  }

  /** A request's future holds the first whole frame of the bytes notified in its turn, and nothing before that. */
  ghost predicate FirstFrameAnswers(s: Session) {
    && (forall id :: id in s.futures && id in s.heard ==> s.futures[id] == FirstFrame(s.heard[id]))
    && (s.holder.Some? && s.holder.value in s.heard ==> s.buffer == Cut(s.heard[s.holder.value]).rest)
    && (forall id :: id in s.phases && s.phases[id].Returned? ==>
          id in s.futures && s.futures[id] == Some(s.phases[id].raw))
  }

  /** A frame answers at most one request, a request takes at most one frame, and only its future's frame. */
  ghost predicate LogAgrees(s: Session) {
    && (forall i :: 0 <= i < |s.log| && s.log[i].to.Some? ==>
          s.log[i].to.value in s.futures && s.futures[s.log[i].to.value] == Some(s.log[i].frame))
    && (forall i, j :: 0 <= i < j < |s.log| && s.log[i].to.Some? ==> s.log[i].to != s.log[j].to)
    && (forall id :: id in s.futures && s.futures[id].Some? ==>
          exists i :: 0 <= i < |s.log| && s.log[i].to == Some(id))
  }

  lemma OneAtATimeStep(s: Session, e: Event)
    requires OneAtATime(s)
    ensures OneAtATime(Step(s, e))
  {
    var s' := Step(s, e);
    if Enabled(s, e) && !e.Notify? {
      forall id: nat ensures InTurn(s', id) <==> s'.holder == Some(id) {
        assert InTurn(s, id) <==> s.holder == Some(id);
        assert InTurn(s, e.id) <==> s.holder == Some(e.id);
      }
    } else {
      assert s'.phases == s.phases;
      assert forall id: nat :: InTurn(s', id) <==> InTurn(s, id);
    }
  }

  lemma FirstFrameGrows(stream: seq<Byte>, data: seq<Byte>)
    ensures var c := Cut(Cut(stream).rest + data);
            && Cut(stream + data).rest == c.rest
            && FirstFrame(stream + data) ==
                 if FirstFrame(stream).Some? then FirstFrame(stream)
                 else if c.frames == [] then None else Some(c.frames[0])
  {
    CutAppend(stream, data);
  }

  lemma FirstFrameAnswersNotified(s: Session, data: seq<Byte>, c: Cutting)
    requires OneAtATime(s) && FirstFrameAnswers(s) && c == Cut(s.buffer + data)
    ensures FirstFrameAnswers(Notified(s, data, c))
  {
    if s.holder.Some? {
      FirstFrameGrows(s.heard[s.holder.value], data);
    }
  }

  lemma FirstFrameAnswersBegun(s: Session, id: nat)
    requires OneAtATime(s) && FirstFrameAnswers(s) && Enabled(s, Begin(id))
    ensures FirstFrameAnswers(Step(s, Begin(id)))
  {
    assert Cut([]) == Cutting([], []);
  }

  lemma FirstFrameAnswersReturned(s: Session, id: nat)
    requires FirstFrameAnswers(s) && Enabled(s, Return(id))
    ensures FirstFrameAnswers(Step(s, Return(id)))
  {
  }

  /** A step that opens no turn and resolves nothing. */
  lemma FirstFrameAnswersOtherwise(s: Session, e: Event)
    requires FirstFrameAnswers(s) && (e.Call? || e.Written? || e.Fail?)
    ensures FirstFrameAnswers(Step(s, e))
  {
    var s' := Step(s, e);
    assert s'.futures == s.futures && s'.heard == s.heard && s'.buffer == s.buffer;
    assert forall id :: id in s'.phases && s'.phases[id].Returned? ==> id in s.phases && s.phases[id] == s'.phases[id];
  }

  lemma FirstFrameAnswersStep(s: Session, e: Event)
    requires OneAtATime(s) && FirstFrameAnswers(s) && Enabled(s, e)
    ensures FirstFrameAnswers(Step(s, e))
  {
    match e
    case Begin(id) => FirstFrameAnswersBegun(s, id);
    case Return(id) => FirstFrameAnswersReturned(s, id);
    case Notify(data) => FirstFrameAnswersNotified(s, data, Cut(s.buffer + data));
    case _ => FirstFrameAnswersOtherwise(s, e);
  }

  lemma LogAgreesNotified(s: Session, data: seq<Byte>, c: Cutting)
    requires OneAtATime(s) && LogAgrees(s)
    ensures LogAgrees(Notified(s, data, c))
  {
    var s' := Notified(s, data, c);
    var to := Unanswered(s);
    assert forall i :: 0 <= i < |s.log| ==> s'.log[i] == s.log[i];
    assert forall i :: |s.log| <= i < |s'.log| ==> s'.log[i] == Entries(c.frames, to)[i - |s.log|];
    forall id | id in s'.futures && s'.futures[id].Some?
      ensures exists i :: 0 <= i < |s'.log| && s'.log[i].to == Some(id)
    {
      if s.futures[id].Some? {
        var i :| 0 <= i < |s.log| && s.log[i].to == Some(id);
        assert s'.log[i].to == Some(id);
      } else {
        assert s'.log[|s.log|].to == Some(id);
      }
    }
  }

  lemma LogAgreesOtherwise(s: Session, e: Event)
    requires OneAtATime(s) && LogAgrees(s) && !e.Notify?
    ensures LogAgrees(Step(s, e))
  {
    var s' := Step(s, e);
    assert s'.log == s.log;
    assert forall id :: id in s.futures ==> id in s'.futures && s'.futures[id] == s.futures[id];
    assert forall id :: id in s'.futures && id !in s.futures ==> s'.futures[id].None?;
  }

  lemma StepKeeps(s: Session, e: Event)
    requires OneAtATime(s) && FirstFrameAnswers(s) && LogAgrees(s)
    ensures OneAtATime(Step(s, e)) && FirstFrameAnswers(Step(s, e)) && LogAgrees(Step(s, e))
  {
    if Enabled(s, e) {
      OneAtATimeStep(s, e);
      FirstFrameAnswersStep(s, e);
      if e.Notify? {
        LogAgreesNotified(s, e.data, Cut(s.buffer + e.data));
      } else {
        LogAgreesOtherwise(s, e);
      }
    }
  }

  lemma {:induction false} RunKeeps(events: seq<Event>)
    ensures OneAtATime(Run(events)) && FirstFrameAnswers(Run(events)) && LogAgrees(Run(events))
  {
    if events != [] {
      var s, e := Run(events[..|events| - 1]), events[|events| - 1];
      RunKeeps(events[..|events| - 1]);
      StepKeeps(s, e);
    }
  }

  // ---------------------------------------------------------------- what the protocol promises

  /** A returning request hands back the first whole frame of the bytes notified since its own reset. */
  lemma ReplyIsFirstFrameHeard(events: seq<Event>, id: nat)
    requires var s := Run(events); id in s.phases && s.phases[id].Returned?
    ensures var s, heard := Run(events), HeardSince(events, id);
            && id in s.heard && heard == Some(s.heard[id])
            && Cut(heard.value).frames != [] && Cut(heard.value).frames[0] == s.phases[id].raw
  {
    RunKeeps(events);
    HeardIsWhatWasNotified(events, id);
  }

  /** What was notified since a request's turn began, told from the events and who held the turn at each. */
  function HeardSince(events: seq<Event>, id: nat): Option<seq<Byte>> {
    if events == [] then None
    else
      var rest, e := events[..|events| - 1], events[|events| - 1];
      if e == Begin(id) && Enabled(Run(rest), e) then Some([])
      else if e.Notify? && Run(rest).holder == Some(id) && HeardSince(rest, id).Some?
      then Some(HeardSince(rest, id).value + e.data)
      else HeardSince(rest, id)
  }

  /** The history of bytes heard is just that. */
  lemma {:induction false} HeardIsWhatWasNotified(events: seq<Event>, id: nat)
    ensures var s := Run(events);
            (if id in s.heard then Some(s.heard[id]) else None) == HeardSince(events, id)
  {
    if events != [] {
      HeardIsWhatWasNotified(events[..|events| - 1], id);
    }
  }

  /** At most one request is between its beginning and its end, and it alone is waiting for a frame. */
  lemma AtMostOnePending(events: seq<Event>, id: nat, other: nat)
    requires InTurn(Run(events), id) && InTurn(Run(events), other)
    ensures id == other && Run(events).pending == Some(id)
  {
    RunKeeps(events);
  }

  /** A request that is not over can fail at any time, waiting or in its turn; then it is over, and if it had the turn
      that is free for the next one, which can begin. */
  lemma FailingFreesTheTurn(events: seq<Event>, id: nat, next: nat)
    requires var s := Run(events); InTurn(s, id) || InPhase(s, id, Queued)
    ensures var s, s' := Run(events), Step(Run(events), Fail(id));
            && InPhase(s', id, Failed) && s'.holder == (if InTurn(s, id) then None else s.holder)
            && (InTurn(s, id) && InPhase(s, next, Queued) ==> Enabled(s', Begin(next)))
  {
    RunKeeps(events);
  }

  /** A future that holds a frame keeps it, whatever happens next. */
  lemma ResolvedOnce(events: seq<Event>, e: Event, id: nat)
    requires var s := Run(events); id in s.futures && s.futures[id].Some?
    ensures var s := Run(events); id in Step(s, e).futures && Step(s, e).futures[id] == s.futures[id]
  {
    RunKeeps(events);
  }

  /** Of all the frames ever cut, exactly one goes to each request whose future is resolved and none to any other. */
  lemma OneFrameEach(events: seq<Event>, id: nat)
    ensures var s := Run(events);
            (id in s.futures && s.futures[id].Some?)
            <==> exists i :: 0 <= i < |s.log| && s.log[i].to == Some(id)
    ensures var s := Run(events);
            forall i, j :: 0 <= i < |s.log| && 0 <= j < |s.log| && s.log[i].to == Some(id) && s.log[j].to == Some(id)
              ==> i == j && s.futures[id] == Some(s.log[i].frame)
  {
    RunKeeps(events);
  }

  /** When the first thing a request hears, marker-free junk aside, is an encoded frame, it returns that frame. */
  lemma RequestGetsItsReply(c: BlockCipher, events: seq<Event>, id: nat, f: Frame, key: Option<seq<Byte>>,
                            junk: seq<Byte>, later: seq<Byte>)
    requires c.Lawful() && Encode(c, f, key).Ok? && f.scrambleKey == 0 && MagicFree(junk)
    requires var s := Run(events);
             && id in s.phases && s.phases[id].Returned?
             && id in s.heard && s.heard[id] == junk + Encode(c, f, key).value + later
    ensures Decode(c, Run(events).phases[id].raw, key) == Ok(f)
  {
    ReplyIsFirstFrameHeard(events, id);
    SerialisedIsSized(c, f, key);
    CutOneSegment(junk, Encode(c, f, key).value, later);
    DecodeEncode(c, f, key);
  }

  datatype RequestError = NoKey | Refused(error: EncodeError)

  /** What `execute` sends for a command: encrypted under the lock's key unless it is asked not to. */
  function Request(c: BlockCipher, version: LockVersion, command: int, data: seq<Byte>, key: Option<seq<Byte>>,
                   encrypted: bool): Result<seq<Byte>, RequestError>
    requires c.Lawful()
  {
    if encrypted && key.None? then Err(NoKey)
    else
      match Encode(c, Frame(version, command, data, 0), if encrypted then key else None)
      case Ok(raw) => Ok(raw)
      case Err(e) => Err(Refused(e))
  }

  /** A command is refused for want of a key exactly when it is to be encrypted and there is none; one that is sent
      arrives at the other end whole, whatever the link cuts it into, and is there read as what was asked for. */
  lemma CommandArrives(c: BlockCipher, version: LockVersion, command: int, data: seq<Byte>, key: Option<seq<Byte>>,
                       encrypted: bool, pieces: seq<seq<Byte>>)
    requires c.Lawful()
    ensures var request := Request(c, version, command, data, key, encrypted);
            && (request == Err(NoKey) <==> encrypted && key.None?)
            && (request.Ok? && Concat(pieces) == request.value ==>
                  && FeedChunks([], pieces) == Cutting([request.value], [])
                  && Decode(c, request.value, if encrypted then key else None) == Ok(Frame(version, command, data, 0)))
  {
    var request, f := Request(c, version, command, data, key, encrypted), Frame(version, command, data, 0);
    if request.Ok? && Concat(pieces) == request.value {
      var used := if encrypted then key else None;
      assert Serialised(c, [f], used, [request.value]);
      assert Concat([request.value]) == request.value && [] + request.value == request.value;
      EndToEnd(c, [f], used, [request.value], [], pieces);
    }
  }

  // ---------------------------------------------------------------- the session object

  /** What notified bytes change that an object can see. */
  predicate Delivers(s: Session, c: Cutting, s': Session) {
    && s'.holder == s.holder && s'.pending == s.pending && s'.buffer == c.rest
    && s'.futures.Keys == s.futures.Keys
    && forall id :: id in s.futures ==>
         s'.futures[id] == if s.pending == Some(id) && s.futures[id].None? && c.frames != []
                           then Some(c.frames[0]) else s.futures[id]
  }

  lemma NotifyStep(s: Session, data: seq<Byte>) returns (s': Session)
    requires OneAtATime(s)
    ensures s' == Step(s, Notify(data)) && OneAtATime(s') && Delivers(s, Cut(s.buffer + data), s')
  {
    s' := Step(s, Notify(data));
    OneAtATimeStep(s, Notify(data));
  }

  class ReplyFuture {
    var result: Option<seq<Byte>>

    constructor ()
      ensures result == None
    {
      result := None;
    }
  }

  /** The connection the session writes to: it takes `capacity` more writes and then fails. */
  class GattClient {
    const mtu: Option<nat>
    var capacity: nat
    var sent: seq<seq<Byte>>

    constructor (mtu: Option<nat>, capacity: nat)
      ensures this.mtu == mtu && this.capacity == capacity && sent == []
    {
      this.mtu, this.capacity, this.sent := mtu, capacity, [];
    }

    method WriteChunk(chunk: seq<Byte>) returns (ok: bool)
      modifies this
      ensures ok <==> old(capacity) > 0
      ensures ok ==> sent == old(sent) + [chunk] && capacity == old(capacity) - 1
      ensures !ok ==> sent == old(sent) && capacity == old(capacity)
    {
      ok := capacity > 0;
      if ok {
        sent, capacity := sent + [chunk], capacity - 1;
      }
    }
  }

  class LockSession {
    const client: GattClient
    const assembler: FrameAssembler
    var pending: ReplyFuture?
    var turnTaken: bool

    /** The protocol state this object is in, and the future each begun request waits on. */
    ghost var state: Session
    ghost var futures: map<nat, ReplyFuture>

    ghost predicate Agrees()
      reads this, assembler, futures.Values
    {
      && OneAtATime(state)
      && assembler.buffer == state.buffer
      && turnTaken == state.holder.Some?
      && Hold(state)
      && PendingKnown()
    }

    /** Every request has a future of its own, and the pending one is that of the pending request. */
    ghost predicate PendingKnown()
      reads this
    {
      && (forall i, j :: i in futures && j in futures && i != j ==> futures[i] != futures[j])
      && (state.pending.None? ==> pending == null)
      && (state.pending.Some? ==> state.pending.value in futures && pending == futures[state.pending.value])
    }

    constructor (client: GattClient)
      ensures Agrees() && state == FRESH && fresh(assembler)
    {
      this.client := client;
      assembler := new FrameAssembler();
      pending, turnTaken := null, false;
      state, futures := FRESH, map[];
    }

    /** Events that change nothing in the object: a call queueing, its last write going out. */
    ghost method Observe(e: Event)
      requires Agrees() && (e.Call? || e.Written?)
      modifies this`state
      ensures Agrees() && state == Step(old(state), e)
    {
      OneAtATimeStep(state, e);
      state := Step(state, e);
    }

    /** The turn is free and taken: forget partial frames and open a new future. */
    method Begin(ghost id: nat)
      requires Agrees() && Enabled(state, Event.Begin(id))
      modifies this, assembler
      ensures Agrees() && state == Step(old(state), Event.Begin(id))
    {
      OneAtATimeStep(state, Event.Begin(id));
      turnTaken := true;
      assembler.Reset();
      var future := new ReplyFuture();
      pending := future;
      ghost var before := state;
      futures := futures[id := future];
      state := Step(state, Event.Begin(id));
    }

    /** Split the serialised command to the link's MTU and write the pieces until one fails. */
    method WritePieces(payload: seq<Byte>) returns (ok: bool)
      modifies client
      ensures var chunks := Split(payload, WriteSize(client.mtu));
              && (ok <==> |chunks| <= old(client.capacity))
              && client.sent == old(client.sent)
                   + chunks[..if |chunks| <= old(client.capacity) then |chunks| else old(client.capacity)]
    {
      var size := WriteSize(client.mtu);
      ghost var chunks, done, room := Split(payload, size), 0, client.capacity;
      var offset := 0;
      ok := true;
      while offset < |payload|
        invariant 0 <= offset <= |payload|
        invariant 0 <= done <= |chunks| && done + client.capacity == room
        invariant chunks[done..] == Split(payload[offset..], size)
        invariant client.sent == old(client.sent) + chunks[..done]
      {
        var end := if offset + size < |payload| then offset + size else |payload|;
        SplitNext(payload, size, offset, chunks[done..]);
        DropMore(chunks, done, 1);
        TakeOneMore(chunks, done);
        ok := client.WriteChunk(payload[offset..end]);
        if !ok {
          return;
        }
        done, offset := done + 1, end;
      }
    }

    /** The pieces written are full packets but for the last, together the beginning of the command; the whole command
        when no write fails, and else as many as the connection takes. */
    method Write(payload: seq<Byte>) returns (ok: bool)
      modifies client
      ensures old(client.sent) <= client.sent
      ensures var pieces := client.sent[|old(client.sent)|..];
              && Fill(pieces, PacketSize(client.mtu))
              && Concat(pieces) <= payload && (ok <==> Concat(pieces) == payload)
              && (!ok ==> |pieces| == old(client.capacity))
    {
      ghost var before, room := client.sent, client.capacity;
      ok := WritePieces(payload);
      ghost var chunks := Split(payload, WriteSize(client.mtu));
      ghost var n := if |chunks| <= room then |chunks| else room;
      assert client.sent[|before|..] == chunks[..n];
      WritesFillPackets(payload, client.mtu, n);
    }

    /** Offer the frames in turn to the pending request, which takes up the first if it has none yet. */
    method Answer(frames: seq<seq<Byte>>)
      modifies if pending == null then {} else {pending}
      ensures pending != null ==>
                pending.result ==
                if old(pending.result).None? && |frames| > 0 then Some(frames[0]) else old(pending.result)
    {
      for i := 0 to |frames|
        invariant pending != null ==>
                    pending.result ==
                    if old(pending.result).None? && i > 0 then Some(frames[0]) else old(pending.result)
      {
        if pending != null && pending.result.None? {
          pending.result := Some(frames[i]);
        }
      }
    }

    /** The futures in this object hold what the protocol state says. */
    ghost predicate Hold(s: Session)
      reads this, futures.Values
    {
      futures.Keys == s.futures.Keys && forall id :: id in futures ==> futures[id].result == s.futures[id]
    }

    /** Of all the requests' futures answering changes the pending one's only. */
    method AnswerPending(frames: seq<seq<Byte>>, ghost c: Cutting, ghost s': Session)
      requires PendingKnown() && Hold(state) && frames == c.frames && Delivers(state, c, s')
      modifies futures.Values
      ensures Hold(s')
    {
      Answer(frames);
    }

    /** Cut the notified bytes and answer with what comes out. */
    method Deliver(data: seq<Byte>, ghost c: Cutting, ghost s': Session)
      requires Agrees() && OneAtATime(s') && c == Cut(assembler.buffer + data) && Delivers(state, c, s')
      modifies this`state, assembler, futures.Values
      ensures Agrees() && state == s' && futures == old(futures)
    {
      var frames := assembler.Feed(data);
      AnswerPending(frames, c, s');
      state := s';
    }

    /** A notification: its first whole frame answers the pending request, everything else is discarded. */
    method Notification(data: seq<Byte>)
      requires Agrees()
      modifies this`state, assembler, futures.Values
      ensures Agrees() && state == Step(old(state), Notify(data)) && futures == old(futures)
    {
      ghost var s' := NotifyStep(state, data);
      Deliver(data, Cut(assembler.buffer + data), s');
    }

    /** The request is over, its frame taken up or not: nothing is pending and the turn is free. */
    method Finish(ghost id: nat, answered: bool) returns (raw: Option<seq<Byte>>)
      requires Agrees() && InTurn(state, id) && (answered ==> Enabled(state, Return(id)))
      modifies this
      ensures Agrees() && futures == old(futures)
      ensures raw == if answered then old(state.futures[id]) else None
      ensures state == Step(old(state), if answered then Return(id) else Fail(id))
      ensures answered ==> state.phases[id] == Returned(raw.value)
    {
      raw := if answered then pending.result else None;
      ghost var e := if answered then Return(id) else Fail(id);
      OneAtATimeStep(state, e);
      pending, turnTaken := null, false;
      state := Step(state, e);
    }
  }
}
