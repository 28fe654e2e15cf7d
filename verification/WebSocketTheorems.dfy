/**
  How the stream of bytes is cut into reads makes no difference, and what comes out is
  what RFC 6455 says: payloads unmasked (section 5.3), the fragments of a message put
  together, and control frames in between answered without disturbing it (section 5.4).
 */
module WebSocketTheorems {
  import opened WebSockets
  import opened Wrappers

  // ---------------------------------------------------------------- read boundaries

  lemma UnmaskedConcat(a: seq<bv8>, b: seq<bv8>, key: seq<bv8>, phase: nat)
    requires |key| == 4
    ensures Unmasked(a + b, key, phase) == Unmasked(a, key, phase) + Unmasked(b, key, (phase + |a|) % 4)
  {
    var whole, parts := Unmasked(a + b, key, phase), Unmasked(a, key, phase) + Unmasked(b, key, (phase + |a|) % 4);
    forall i | 0 <= i < |whole| ensures whole[i] == parts[i] {
      if i >= |a| {
        assert (phase + i) % 4 == ((phase + |a|) % 4 + (i - |a|)) % 4;
      }
    }
  }

  lemma AfterDataConcat(c: State, a: seq<bv8>, b: seq<bv8>)
    requires Proper(c) && |a| + |b| <= c.remaining
    ensures AfterData(c, a + b) == AfterData(AfterData(c, a), b)
  {
    hide Unmasked, IsControl;
    UnmaskedConcat(a, b, c.key, c.maskPhase);
    assert (c.maskPhase + |a + b|) % 4 == ((c.maskPhase + |a|) % 4 + |b|) % 4;
    var plainA := if c.masked then Unmasked(a, c.key, c.maskPhase) else a;
    var plainB := if c.masked then Unmasked(b, c.key, (c.maskPhase + |a|) % 4) else b;
    assert (if c.masked then Unmasked(a + b, c.key, c.maskPhase) else a + b) == plainA + plainB;
    assert c.frameData + (plainA + plainB) == c.frameData + plainA + plainB;
    assert c.controlData + (plainA + plainB) == c.controlData + plainA + plainB;
  }

  /** Reading `a`, and later `b`, is reading both at once. */
  lemma {:induction false} FeedConcat(c: State, a: seq<bv8>, b: seq<bv8>)
    requires Proper(c)
    ensures Feed(c, a + b) == Feed(Feed(c, a).0, Feed(c, a).1 + b)
    decreases |a|, if c.phase == ReadingData then 2 else 0
  {
    hide AfterData, AfterFrame, AfterHeader;
    if c.phase == AwaitingFrame {
      if !Waits(a) {
        assert (a + b)[0] == a[0] && (a + b)[1] == a[1];
        if ExtendedLength(a[1]) == 0 {
          var h := HeaderLength(a[1]);
          SameHeader(c, a, b);
          assert (a + b)[h..] == a[h..] + b;
          FeedConcat(AfterHeader(c, a), a[h..], b);
        }
      }
    } else if c.phase == ReadingData {
      DataConcat(c, a, b);
    }
  }

  lemma SameHeader(c: State, a: seq<bv8>, b: seq<bv8>)
    requires Proper(c) && !Waits(a) && ExtendedLength(a[1]) == 0
    ensures !Waits(a + b) && (a + b)[1] == a[1] && AfterHeader(c, a + b) == AfterHeader(c, a)
  {
    var whole := a + b;
    assert whole[0] == a[0] && whole[1] == a[1];
    if a[1] & 0x80 != 0 {
      assert whole[2..6] == a[2..6];
    }
  }

  lemma {:induction false} DataConcat(c: State, a: seq<bv8>, b: seq<bv8>)
    requires Proper(c) && c.phase == ReadingData
    ensures Feed(c, a + b) == Feed(Feed(c, a).0, Feed(c, a).1 + b)
    decreases |a|, 1
  {
    hide AfterHeader, AfterData, Waits;
    if |a| < c.remaining {
      FeedPart(c, a);
      assert [] + b == b;
      FeedMore(c, a, b);
    } else {
      var n := c.remaining;
      assert (a + b)[..n] == a[..n] && (a + b)[n..] == a[n..] + b;
      FeedWhole(c, a);
      FeedWhole(c, a + b);
      FeedConcat(AfterFrame(AfterData(c, a[..n])), a[n..], b);
    }
  }

  /** Not all of the data is there. */
  lemma FeedPart(c: State, a: seq<bv8>)
    requires Proper(c) && c.phase == ReadingData && |a| < c.remaining
    ensures Feed(c, a) == (AfterData(c, a), []) && AfterData(c, a).phase == ReadingData
  {
    hide AfterData, AfterFrame, AfterHeader, Waits;
    assert a[..|a|] == a && a[|a|..] == [];
  }

  lemma FeedWhole(c: State, a: seq<bv8>)
    requires Proper(c) && c.phase == ReadingData && |a| >= c.remaining
    ensures Proper(AfterFrame(AfterData(c, a[..c.remaining]))) && AfterFrame(AfterData(c, a[..c.remaining])).phase != ReadingData
    ensures Feed(c, a) == Feed(AfterFrame(AfterData(c, a[..c.remaining])), a[c.remaining..])
  {
    hide AfterData, AfterFrame, AfterHeader, Waits;
  }

  /** The rest of the data, or more of it, comes later. */
  lemma FeedMore(c: State, a: seq<bv8>, b: seq<bv8>)
    requires Proper(c) && c.phase == ReadingData && |a| < c.remaining
    ensures Feed(c, a + b) == Feed(AfterData(c, a), b)
  {
    hide AfterData, Unmasked, IsControl, AfterFrame;
    FeedPart(c, a);
    if |a| + |b| < c.remaining {
      FeedPart(c, a + b);
      FeedPart(AfterData(c, a), b);
      AfterDataConcat(c, a, b);
    } else {
      var n := c.remaining - |a|;
      FeedWhole(c, a + b);
      FeedWhole(AfterData(c, a), b);
      assert (a + b)[..c.remaining] == a + b[..n] && (a + b)[c.remaining..] == b[n..];
      AfterDataConcat(c, a, b[..n]);
    }
  }

  function Concat(chunks: seq<seq<bv8>>): seq<bv8> {
    if chunks == [] then [] else chunks[0] + Concat(chunks[1..])
  }

  /** One read after the other. */
  function FeedAll(c: State, pending: seq<bv8>, chunks: seq<seq<bv8>>): (State, seq<bv8>)
    requires Proper(c)
    decreases |chunks|
  {
    if chunks == [] then (c, pending)
    else
      var fed := Feed(c, pending + chunks[0]);
      FeedAll(fed.0, fed.1, chunks[1..])
  }

  lemma {:induction false} FeedAllConcat(c: State, pending: seq<bv8>, chunks: seq<seq<bv8>>)
    requires Proper(c) && Feed(c, pending) == (c, pending)
    ensures FeedAll(c, pending, chunks) == Feed(c, pending + Concat(chunks))
    decreases |chunks|
  {
    hide Feed;
    if chunks == [] {
      assert pending + [] == pending;
    } else {
      var fed := Feed(c, pending + chunks[0]);
      FeedIsDone(c, pending + chunks[0]);
      FeedAllConcat(fed.0, fed.1, chunks[1..]);
      FeedConcat(c, pending + chunks[0], Concat(chunks[1..]));
      assert pending + chunks[0] + Concat(chunks[1..]) == pending + Concat(chunks);
    }
  }

  /** What is left over cannot be taken without more. */
  lemma FeedIsDone(c: State, bytes: seq<bv8>)
    requires Proper(c)
    ensures Feed(Feed(c, bytes).0, Feed(c, bytes).1) == Feed(c, bytes)
  {
    hide Feed;
    FeedConcat(c, bytes, []);
    assert bytes + [] == bytes && Feed(c, bytes).1 + [] == Feed(c, bytes).1;
  }

  /** A connection that has just been made a WebSocket. */
  const Start := State(AwaitingFrame, false, false, 0, 0, [0, 0, 0, 0], 0, [], [], [])

  /** Reads that carry the same bytes have the same effect. */
  lemma ReadBoundariesMakeNoDifference(chunks: seq<seq<bv8>>, others: seq<seq<bv8>>)
    requires Concat(chunks) == Concat(others)
    ensures FeedAll(Start, [], chunks) == FeedAll(Start, [], others)
  {
    FeedAllConcat(Start, [], chunks);
    FeedAllConcat(Start, [], others);
  }

  // ---------------------------------------------------------------- frames

  /** `length` is the length of the payload as it is sent. */
  datatype Frame = Frame(final: bool, opcode: bv8, length: bv8, key: Option<seq<bv8>>, payload: seq<bv8>)

  /** A frame whose length fits in seven bits.  The bits that are reserved belong to the opcode, as the connection has it. */
  predicate Short(f: Frame) {
    f.opcode & 0x80 == 0 && f.length & 0x80 == 0 && f.length as nat == |f.payload| <= 125 && (f.key.Some? ==> |f.key.value| == 4)
  }

  /** Section 5.2. */
  function Header(f: Frame): seq<bv8>
    requires Short(f)
  {
    var first := (if f.final then 0x80 else 0) | f.opcode;
    if f.key.Some? then [first, 0x80 | f.length] + f.key.value else [first, f.length]
  }

  /** Section 5.3: byte `i` of a payload is masked with byte `i` modulo 4 of the key. */
  function Masked(f: Frame): (r: seq<bv8>)
    requires Short(f)
    ensures |r| == |f.payload|
  {
    if f.key.Some? then seq(|f.payload|, i requires 0 <= i < |f.payload| => f.payload[i] ^ f.key.value[i % 4]) else f.payload
  }

  function Encode(f: Frame): seq<bv8>
    requires Short(f)
  {
    Header(f) + Masked(f)
  }

  /** The masked "Hello" of section 5.7. */
  lemma HelloIsEncoded()
    ensures var hello := Frame(true, TEXT, 5, Some([0x37, 0xFA, 0x21, 0x3D]), [0x48, 0x65, 0x6C, 0x6C, 0x6F]);
            Short(hello) && Encode(hello) == [0x81, 0x85, 0x37, 0xFA, 0x21, 0x3D, 0x7F, 0x9F, 0x4D, 0x51, 0x58]
  {
    hide Length7;
    var hello := Frame(true, TEXT, 5, Some([0x37, 0xFA, 0x21, 0x3D]), [0x48, 0x65, 0x6C, 0x6C, 0x6F]);
    assert Masked(hello) == [0x7F, 0x9F, 0x4D, 0x51, 0x58];
  }

  predicate AllShort(frames: seq<Frame>) {
    forall i :: 0 <= i < |frames| ==> Short(frames[i])
  }

  function EncodeAll(frames: seq<Frame>): seq<bv8>
    requires AllShort(frames)
  {
    if frames == [] then [] else Encode(frames[0]) + EncodeAll(frames[1..])
  }

  /** A receiver in terms of whole frames: the fragments of the current message, and what has been done. */
  datatype Receiver = Receiver(fragments: seq<bv8>, events: seq<Event>, closed: bool)

  function Receive(r: Receiver, f: Frame): Receiver {
    if r.closed then r
    else if f.opcode == CLOSE_CONNECTION then r.(events := r.events + [Reply(CLOSE_CONNECTION, f.payload)], closed := true)
    else if f.opcode == PING then r.(events := r.events + [Reply(PONG, f.payload)])
    else if f.opcode != TEXT && f.opcode != BINARY && f.opcode != CONTINUATION then r
    else
      var message := if f.opcode == CONTINUATION then r.fragments + f.payload else f.payload;
      r.(fragments := message, events := if f.final then r.events + [Message(message)] else r.events)
  }

  function ReceiveAll(r: Receiver, frames: seq<Frame>): Receiver
    decreases |frames|
  {
    if frames == [] then r else ReceiveAll(Receive(r, frames[0]), frames[1..])
  }

  /** The bits of the first two bytes. */
  lemma Bits(final: bool, opcode: bv8, length: bv8)
    requires opcode & 0x80 == 0 && length & 0x80 == 0
    ensures var first := (if final then 0x80 else 0) | opcode;
            && first & 0x7F == opcode && (first & 0x80 != 0 <==> final)
    ensures (0x80 | length) & 0x7F == length & 0x7F && (0x80 | length) & 0x80 != 0
  {
  }

  lemma MaskBitIsNoLength(length: bv8)
    requires length & 0x80 == 0
    ensures Length7(0x80 | length) == length as nat == Length7(length)
  {
    assert (0x80 | length) & 0x7F == length == length & 0x7F;
  }

  /** What the two bytes that every frame begins with are read as. */
  lemma FirstBytesRead(f: Frame)
    requires Short(f)
    ensures var bytes := Header(f);
            && bytes[0] & 0x7F == f.opcode && (bytes[0] & 0x80 != 0 <==> f.final)
            && (bytes[1] & 0x80 != 0 <==> f.key.Some?) && Length7(bytes[1]) == |f.payload|
            && ExtendedLength(bytes[1]) == 0 && |bytes| == HeaderLength(bytes[1])
  {
    hide Length7;
    MaskBitIsNoLength(f.length);
    Bits(f.final, f.opcode, f.length);
  }

  /** What a header is read as, once there is something after it. */
  lemma HeaderReads(c: State, f: Frame, rest: seq<bv8>)
    requires Proper(c) && Short(f)
    ensures var bytes := Header(f) + rest;
            && |Header(f)| == HeaderLength(bytes[1]) && ExtendedLength(bytes[1]) == 0
            && (Waits(bytes) <==> rest == [])
            && (rest != [] ==> AfterHeader(c, bytes) == Begun(c, f))
  {
    hide Length7, ExtendedLength, HeaderLength, Header, AfterHeader;
    FirstBytesRead(f);
    HeaderKey(f);
    var bytes := Header(f) + rest;
    assert bytes[0] == Header(f)[0] && bytes[1] == Header(f)[1];
    HeaderWaits(bytes, |Header(f)|);
    if rest != [] {
      HeaderBegins(c, f, bytes);
    }
  }

  lemma HeaderKey(f: Frame)
    requires Short(f)
    ensures |Header(f)| >= 2 && (f.key.Some? ==> |Header(f)| == 6 && Header(f)[2..] == f.key.value)
  {
  }

  lemma HeaderBegins(c: State, f: Frame, bytes: seq<bv8>)
    requires Proper(c) && Short(f) && !Waits(bytes) && ExtendedLength(bytes[1]) == 0
    requires bytes[0] & 0x7F == f.opcode && (bytes[0] & 0x80 != 0 <==> f.final)
    requires (bytes[1] & 0x80 != 0 <==> f.key.Some?) && Length7(bytes[1]) == |f.payload|
    requires f.key.Some? ==> |bytes| >= 6 && bytes[2..6] == f.key.value
    ensures AfterHeader(c, bytes) == Begun(c, f)
  {
    hide Length7, ExtendedLength, Waits;
  }

  /** The state when a frame's header was read. */
  ghost function Begun(c: State, f: Frame): State
    requires Proper(c) && Short(f)
  {
    c.(phase := ReadingData, final := f.final, masked := f.key.Some?, opcode := f.opcode, remaining := |f.payload|,
    key := if f.key.Some? then f.key.value else c.key, maskPhase := 0,
    frameData := if f.opcode == TEXT || f.opcode == BINARY then [] else c.frameData, controlData := [])
  }

  lemma HeaderWaits(bytes: seq<bv8>, n: nat)
    requires 2 <= n <= |bytes| && ExtendedLength(bytes[1]) == 0 && HeaderLength(bytes[1]) == n
    ensures Waits(bytes) <==> n == |bytes|
  {
  }

  lemma XorUndone(plain: bv8, key: bv8)
    ensures plain ^ key ^ key == plain
  {
  }

  /** Unmasking gives back what was masked. */
  lemma MaskedIsUnmasked(f: Frame)
    requires Short(f) && f.key.Some?
    ensures Unmasked(Masked(f), f.key.value, 0) == f.payload
  {
    var plain := Unmasked(Masked(f), f.key.value, 0);
    forall i | 0 <= i < |plain| ensures plain[i] == f.payload[i] {
      XorUndone(f.payload[i], f.key.value[i % 4]);
    }
  }

  /** Masking again gives back what was unmasked. */
  lemma UnmaskedIsMasked(f: Frame, data: seq<bv8>)
    requires Short(f) && f.key.Some? && f.payload == Unmasked(data, f.key.value, 0)
    ensures Masked(f) == data
  {
    forall i | 0 <= i < |data| ensures Masked(f)[i] == data[i] {
      XorUndone(data[i], f.key.value[i % 4]);
    }
  }

  ghost predicate Represents(c: State, r: Receiver) {
    && Proper(c) && c.frameData == r.fragments && c.events == r.events
    && c.phase == if r.closed then Closed else AwaitingFrame
  }

  /** The state after all of a frame. */
  ghost function AfterAll(c: State, f: Frame): State
    requires Proper(c) && Short(f)
  {
    AfterFrame(AfterData(Begun(c, f), Masked(f)))
  }

  lemma AfterAllRepresents(c: State, r: Receiver, f: Frame)
    requires Represents(c, r) && !r.closed && Short(f)
    ensures Represents(AfterAll(c, f), Receive(r, f))
  {
    hide Unmasked;
    if f.key.Some? {
      MaskedIsUnmasked(f);
    }
    assert [] + f.payload == f.payload;
  }

  /** A frame that is followed by something, or has a payload, is taken whole. */
  lemma FrameIsTaken(c: State, f: Frame, rest: seq<bv8>)
    requires Proper(c) && c.phase == AwaitingFrame && Short(f) && Masked(f) + rest != []
    ensures Feed(c, Encode(f) + rest) == Feed(AfterAll(c, f), rest)
  {
    hide Unmasked, Header, Masked, AfterFrame, AfterHeader, AfterData, Feed, Waits, Length7, ExtendedLength, HeaderLength;
    var data := Masked(f);
    var bytes := Header(f) + (data + rest);
    assert Encode(f) + rest == bytes;
    HeaderReads(c, f, data + rest);
    HeaderKey(f);
    FeedHeader(c, bytes);
    assert bytes[|Header(f)|..] == data + rest;
    var start := AfterHeader(c, bytes);
    FeedWhole(start, data + rest);
    assert (data + rest)[..|data|] == data && (data + rest)[|data|..] == rest;
  }

  lemma FeedHeader(c: State, bytes: seq<bv8>)
    requires Proper(c) && c.phase == AwaitingFrame && !Waits(bytes) && ExtendedLength(bytes[1]) == 0
    ensures Feed(c, bytes) == Feed(AfterHeader(c, bytes), bytes[HeaderLength(bytes[1])..])
  {
    hide AfterHeader, AfterData, AfterFrame;
  }

  /** A frame without a payload waits for what comes after it. */
  lemma EmptyFrameWaits(c: State, f: Frame)
    requires Proper(c) && c.phase == AwaitingFrame && Short(f) && f.payload == []
    ensures Feed(c, Encode(f)) == (c, Encode(f))
  {
    hide Unmasked, Header;
    HeaderReads(c, f, []);
    assert Header(f) + [] == Encode(f);
  }

  lemma ClosedStays(c: State, r: Receiver, bytes: seq<bv8>, frames: seq<Frame>)
    requires Represents(c, r) && r.closed
    ensures Feed(c, bytes) == (c, bytes) && ReceiveAll(r, frames) == r
    decreases |frames|
  {
    if frames != [] {
      ClosedStays(c, r, bytes, frames[1..]);
    }
  }

  lemma EncodeNotEmpty(f: Frame)
    requires Short(f)
    ensures Encode(f) != []
  {
  }

  /** All frames are taken if the last has a payload. */
  lemma {:induction false} FramesAreTaken(c: State, r: Receiver, frames: seq<Frame>)
    requires AllShort(frames) && Represents(c, r)
    requires frames == [] || frames[|frames| - 1].payload != []
    ensures var fed := Feed(c, EncodeAll(frames));
            && Represents(fed.0, ReceiveAll(r, frames))
            && (!ReceiveAll(r, frames).closed ==> fed.1 == [])
    decreases |frames|
  {
    hide Encode, AfterAll, Receive, Feed, Unmasked, Masked, Header;
    if r.closed {
      ClosedStays(c, r, EncodeAll(frames), frames);
    } else if frames == [] {
      NothingToFeed(c, r);
    } else {
      TakeFirst(c, r, frames);
      FramesAreTaken(AfterAll(c, frames[0]), Receive(r, frames[0]), frames[1..]);
    }
  }

  lemma NothingToFeed(c: State, r: Receiver)
    requires Represents(c, r)
    ensures Feed(c, []) == (c, [])
  {
  }

  lemma TakeFirst(c: State, r: Receiver, frames: seq<Frame>)
    requires AllShort(frames) && Represents(c, r) && !r.closed && frames != []
    requires frames[0].payload != [] || |frames| > 1
    ensures Proper(AfterAll(c, frames[0]))
    ensures Represents(AfterAll(c, frames[0]), Receive(r, frames[0]))
    ensures Feed(c, EncodeAll(frames)) == Feed(AfterAll(c, frames[0]), EncodeAll(frames[1..]))
  {
    hide Feed, AfterAll, Receive, Encode, Masked;
    AfterAllRepresents(c, r, frames[0]);
    if |frames| > 1 {
      EncodeNotEmpty(frames[1]);
      assert EncodeAll(frames[1..]) == Encode(frames[1]) + EncodeAll(frames[1..][1..]);
    }
    FrameIsTaken(c, frames[0], EncodeAll(frames[1..]));
  }

  /** If the last frame has no payload, everything before it is taken and it is left over. */
  lemma {:induction false} LastEmptyFrameWaits(c: State, r: Receiver, frames: seq<Frame>)
    requires AllShort(frames) && Represents(c, r)
    requires frames != [] && frames[|frames| - 1].payload == []
    ensures var fed := Feed(c, EncodeAll(frames));
            var before := ReceiveAll(r, frames[..|frames| - 1]);
            && Represents(fed.0, before)
            && (!before.closed ==> fed.1 == Encode(frames[|frames| - 1]))
    decreases |frames|
  {
    hide Encode, AfterAll, Receive, Feed, Unmasked, Masked, Header;
    if r.closed {
      ClosedStays(c, r, EncodeAll(frames), frames[..|frames| - 1]);
    } else if |frames| == 1 {
      OneEmptyFrame(c, r, frames[0]);
      assert frames[1..] == [] && frames[..0] == [];
      assert EncodeAll(frames) == Encode(frames[0]) + [] == Encode(frames[0]);
    } else {
      TakeFirst(c, r, frames);
      LastEmptyFrameWaits(AfterAll(c, frames[0]), Receive(r, frames[0]), frames[1..]);
      assert frames[..|frames| - 1][1..] == frames[1..][..|frames[1..]| - 1];
    }
  }

  lemma OneEmptyFrame(c: State, r: Receiver, f: Frame)
    requires Represents(c, r) && !r.closed && Short(f) && f.payload == []
    ensures Feed(c, Encode(f)) == (c, Encode(f))
  {
    EmptyFrameWaits(c, f);
  }

  const NewReceiver := Receiver([], [], false)

  /** The frames that a connection acts upon: all of them, but the last only if it has a payload. */
  function Acted(frames: seq<Frame>): seq<Frame> {
    if frames != [] && frames[|frames| - 1].payload == [] then frames[..|frames| - 1] else frames
  }

  /**
    Reassembly.  However the bytes of some frames are cut into reads, the connection
    delivers and answers exactly what a receiver of whole frames does, except that a
    last frame without a payload waits for the next byte.
   */
  lemma FramesReassemble(frames: seq<Frame>, chunks: seq<seq<bv8>>)
    requires AllShort(frames) && Concat(chunks) == EncodeAll(frames)
    ensures var fed := FeedAll(Start, [], chunks);
            var received := ReceiveAll(NewReceiver, Acted(frames));
            && fed.0.events == received.events
            && fed.0.phase == (if received.closed then Closed else AwaitingFrame)
            && (!received.closed ==> fed.1 == if Acted(frames) == frames then [] else Encode(frames[|frames| - 1]))
  {
    hide Feed, EncodeAll, Receive, ReceiveAll, Encode, FeedAll, Concat, Waits, Unmasked;
    assert Feed(Start, []) == (Start, []) by { StartWaits(); }
    FeedAllConcat(Start, [], chunks);
    assert [] + Concat(chunks) == EncodeAll(frames);
    assert Represents(Start, NewReceiver);
    if Acted(frames) == frames {
      FramesAreTaken(Start, NewReceiver, frames);
    } else {
      LastEmptyFrameWaits(Start, NewReceiver, frames);
    }
  }

  lemma StartWaits()
    ensures Feed(Start, []) == (Start, [])
  {
  }

  // ---------------------------------------------------------------- messages

  function Messages(events: seq<Event>): seq<Event> {
    if events == [] then []
    else (if events[0].Message? then [events[0]] else []) + Messages(events[1..])
  }

  function Replies(events: seq<Event>): seq<Event> {
    if events == [] then []
    else (if events[0].Reply? then [events[0]] else []) + Replies(events[1..])
  }

  lemma {:induction false} MessagesAppend(events: seq<Event>, e: Event)
    ensures Messages(events + [e]) == Messages(events) + (if e.Message? then [e] else [])
    ensures Replies(events + [e]) == Replies(events) + (if e.Reply? then [e] else [])
  {
    if events == [] {
      assert [] + [e] == [e] && [e][1..] == [];
    } else {
      assert (events + [e])[1..] == events[1..] + [e];
      MessagesAppend(events[1..], e);
    }
  }

  function DataFrames(frames: seq<Frame>): seq<Frame> {
    if frames == [] then []
    else (if IsControl(frames[0].opcode) then [] else [frames[0]]) + DataFrames(frames[1..])
  }

  /** The replies that are due: a pong for each ping. */
  function Pongs(frames: seq<Frame>): seq<Event> {
    if frames == [] then []
    else (if frames[0].opcode == PING then [Reply(PONG, frames[0].payload)] else []) + Pongs(frames[1..])
  }

  ghost predicate NoClose(frames: seq<Frame>) {
    forall i :: 0 <= i < |frames| ==> frames[i].opcode != CLOSE_CONNECTION
  }

  /** Two receivers that differ at most in their replies. */
  ghost predicate SameMessages(r: Receiver, quiet: Receiver) {
    !r.closed && !quiet.closed && quiet.fragments == r.fragments && Messages(quiet.events) == Messages(r.events)
  }

  lemma ControlFrameStep(r: Receiver, quiet: Receiver, f: Frame)
    requires SameMessages(r, quiet) && f.opcode != CLOSE_CONNECTION
    ensures SameMessages(Receive(r, f), if IsControl(f.opcode) then quiet else Receive(quiet, f))
    ensures Replies(Receive(r, f).events) == Replies(r.events) + if f.opcode == PING then [Reply(PONG, f.payload)] else []
  {
    hide Messages, Replies;
    var message := Message(Receive(r, f).fragments);
    MessagesAppend(r.events, Reply(PONG, f.payload));
    MessagesAppend(r.events, message);
    MessagesAppend(quiet.events, message);
  }

  lemma DataFramesFrom(frames: seq<Frame>)
    requires frames != []
    ensures IsControl(frames[0].opcode) ==> DataFrames(frames) == DataFrames(frames[1..])
    ensures !IsControl(frames[0].opcode) ==>
              DataFrames(frames) != [] && DataFrames(frames)[0] == frames[0] && DataFrames(frames)[1..] == DataFrames(frames[1..])
  {
  }

  /** Without its control frames a stream leads to the same messages. */
  lemma {:induction false} SameMessagesWithout(r: Receiver, quiet: Receiver, frames: seq<Frame>)
    requires NoClose(frames) && SameMessages(r, quiet)
    ensures SameMessages(ReceiveAll(r, frames), ReceiveAll(quiet, DataFrames(frames)))
    decreases |frames|
  {
    hide Receive, SameMessages, DataFrames;
    if frames == [] {
      assert DataFrames(frames) == [] by {
        NoDataFrames();
      }
    } else {
      var f := frames[0];
      ControlFrameStep(r, quiet, f);
      SameMessagesWithout(Receive(r, f), if IsControl(f.opcode) then quiet else Receive(quiet, f), frames[1..]);
      DataFramesFrom(frames);
    }
  }

  lemma NoDataFrames()
    ensures DataFrames([]) == []
  {
  }

  /** Each ping is answered, in its turn. */
  lemma {:induction false} PingsAreAnswered(r: Receiver, frames: seq<Frame>)
    requires NoClose(frames) && !r.closed
    ensures Replies(ReceiveAll(r, frames).events) == Replies(r.events) + Pongs(frames)
    decreases |frames|
  {
    hide Receive, Replies;
    if frames != [] {
      var f := frames[0];
      assert SameMessages(r, r);
      ControlFrameStep(r, r, f);
      PingsAreAnswered(Receive(r, f), frames[1..]);
    }
  }

  /** Control frames between the fragments of a message do not disturb it, and each ping is answered in its turn. */
  lemma ControlFramesDoNotDisturb(r: Receiver, quiet: Receiver, frames: seq<Frame>)
    requires NoClose(frames) && SameMessages(r, quiet)
    ensures SameMessages(ReceiveAll(r, frames), ReceiveAll(quiet, DataFrames(frames)))
    ensures Replies(ReceiveAll(r, frames).events) == Replies(r.events) + Pongs(frames)
  {
    hide ReceiveAll, Messages, Replies, DataFrames, Pongs;
    SameMessagesWithout(r, quiet, frames);
    PingsAreAnswered(r, frames);
  }

  /** The frames of one message whose fragments are `parts`. */
  predicate IsMessage(frames: seq<Frame>, parts: seq<seq<bv8>>) {
    && |frames| == |parts| > 0
    && (frames[0].opcode == TEXT || frames[0].opcode == BINARY)
    && (forall i :: 1 <= i < |frames| ==> frames[i].opcode == CONTINUATION)
    && (forall i :: 0 <= i < |frames| ==> frames[i].payload == parts[i] && (frames[i].final <==> i == |frames| - 1))
  }

  lemma {:induction false} ContinuationsAppend(r: Receiver, frames: seq<Frame>, parts: seq<seq<bv8>>)
    requires |frames| == |parts| > 0 && !r.closed
    requires forall i :: 0 <= i < |frames| ==> frames[i].opcode == CONTINUATION && frames[i].payload == parts[i]
    requires forall i :: 0 <= i < |frames| ==> (frames[i].final <==> i == |frames| - 1)
    ensures ReceiveAll(r, frames) == Receiver(r.fragments + Concat(parts), r.events + [Message(r.fragments + Concat(parts))], false)
    decreases |frames|
  {
    hide Receive;
    ContinuationReceived(r, frames[0]);
    var r1 := Receive(r, frames[0]);
    if |frames| == 1 {
      assert Concat(parts) == parts[0] + [] == parts[0];
      assert ReceiveAll(r1, frames[1..]) == r1;
    } else {
      ContinuationsAppend(r1, frames[1..], parts[1..]);
      assert r.fragments + parts[0] + Concat(parts[1..]) == r.fragments + Concat(parts);
    }
  }

  lemma ContinuationReceived(r: Receiver, f: Frame)
    requires !r.closed && f.opcode == CONTINUATION
    ensures var message := r.fragments + f.payload;
            Receive(r, f) == Receiver(message, if f.final then r.events + [Message(message)] else r.events, false)
  {
  }

  /** A message in any number of fragments is delivered once, as their concatenation. */
  lemma FragmentsMakeAMessage(r: Receiver, frames: seq<Frame>, parts: seq<seq<bv8>>)
    requires IsMessage(frames, parts) && !r.closed
    ensures ReceiveAll(r, frames).events == r.events + [Message(Concat(parts))]
  {
    var r1 := Receive(r, frames[0]);
    if |frames| == 1 {
      assert Concat(parts) == parts[0] + [] == parts[0];
      assert ReceiveAll(r1, frames[1..]) == r1;
    } else {
      ContinuationsAppend(r1, frames[1..], parts[1..]);
    }
  }
}
