/**
  Whole streams of bytes: how a connection's ticks take them, and when a stream of any
  bytes at all leads into the endless loop that reads an extended length.
 */
module WebSocketStreams {
  import opened WebSockets
  import opened WebSocketTheorems
  import opened Wrappers

  // ---------------------------------------------------------------- extended lengths

  /** A frame begins here that has an extended length, and all of its length and a byte more are there. */
  predicate Extended(bytes: seq<bv8>) {
    && |bytes| >= 2
    && (((bytes[1] & 0x7F) as nat == 126 && |bytes| > 2 + 2) || ((bytes[1] & 0x7F) as nat == 127 && |bytes| > 2 + 8))
  }

  /** Frames that are followed by something are all taken, until one closes the connection. */
  lemma {:induction false} FramesThen(c: State, r: Receiver, frames: seq<Frame>, rest: seq<bv8>)
    requires AllShort(frames) && Represents(c, r) && rest != []
    ensures var received := ReceiveAll(r, frames);
            var fed := Feed(c, EncodeAll(frames) + rest);
            if received.closed then fed.0.phase == Closed
            else exists c' :: Represents(c', received) && fed == Feed(c', rest)
    decreases |frames|
  {
    hide Encode, AfterAll, Receive, Feed, Masked;
    if r.closed {
      ClosedStays(c, r, EncodeAll(frames) + rest, frames);
    } else if frames == [] {
      assert EncodeAll(frames) + rest == rest;
    } else {
      var more := EncodeAll(frames[1..]) + rest;
      assert EncodeAll(frames) + rest == Encode(frames[0]) + more;
      AfterAllRepresents(c, r, frames[0]);
      FrameIsTaken(c, frames[0], more);
      FramesThen(AfterAll(c, frames[0]), Receive(r, frames[0]), frames[1..], rest);
    }
  }

  lemma ExtendedHangs(c: State, bytes: seq<bv8>)
    requires Proper(c) && c.phase == AwaitingFrame && Extended(bytes)
    ensures Feed(c, bytes).0.phase == Hung
  {
  }

  /** Putting a first byte together again from its parts. */
  lemma ByteParts(b: bv8)
    ensures (if b & 0x80 != 0 then 0x80 else 0) | (b & 0x7F) == b && (b & 0x7F) & 0x80 == 0
    ensures b & 0x80 != 0 ==> 0x80 | (b & 0x7F) == b
    ensures b & 0x80 == 0 ==> b & 0x7F == b
  {
  }

  lemma SameLength7(b: bv8)
    ensures (b & 0x7F) as nat == Length7(b)
  {
  }

  lemma ShortIsAtMost125(b: bv8)
    requires ExtendedLength(b) == 0
    ensures Length7(b) <= 125
  {
  }

  /** A whole frame of a length of seven bits begins here. */
  predicate HasFrame(bytes: seq<bv8>) {
    !Waits(bytes) && ExtendedLength(bytes[1]) == 0 && |bytes| >= HeaderLength(bytes[1]) + Length7(bytes[1])
  }

  /** The frame that begins here. */
  function Decoded(bytes: seq<bv8>): (f: Frame)
    requires HasFrame(bytes)
  {
    var n := HeaderLength(bytes[1]);
    var data := bytes[n..n + Length7(bytes[1])];
    var key := if bytes[1] & 0x80 != 0 then Some(bytes[2..6]) else None;
    Frame(bytes[0] & 0x80 != 0, bytes[0] & 0x7F, bytes[1] & 0x7F, key,
          if key.Some? then Unmasked(data, key.value, 0) else data)
  }

  lemma DecodedIsShort(bytes: seq<bv8>)
    requires HasFrame(bytes)
    ensures Short(Decoded(bytes))
  {
    hide Unmasked, Length7, ExtendedLength;
    ByteParts(bytes[0]);
    ByteParts(bytes[1]);
    SameLength7(bytes[1]);
    ShortIsAtMost125(bytes[1]);
  }

  lemma DecodedHeader(bytes: seq<bv8>)
    requires HasFrame(bytes) && Short(Decoded(bytes))
    ensures Header(Decoded(bytes)) == bytes[..HeaderLength(bytes[1])]
  {
    hide Unmasked, Length7, ExtendedLength, Short;
    ByteParts(bytes[0]);
    ByteParts(bytes[1]);
  }

  lemma DecodedData(bytes: seq<bv8>)
    requires HasFrame(bytes) && Short(Decoded(bytes))
    ensures Masked(Decoded(bytes)) == bytes[HeaderLength(bytes[1])..HeaderLength(bytes[1]) + Length7(bytes[1])]
  {
    hide Unmasked, Length7, ExtendedLength, Short;
    var data := bytes[HeaderLength(bytes[1])..HeaderLength(bytes[1]) + Length7(bytes[1])];
    if bytes[1] & 0x80 != 0 {
      hide Masked;
      UnmaskedIsMasked(Decoded(bytes), data);
    }
  }

  /** All of it is a frame of seven bits' length. */
  lemma DecodedIsEncoded(bytes: seq<bv8>)
    requires HasFrame(bytes)
    ensures Short(Decoded(bytes)) && Encode(Decoded(bytes)) == bytes[..HeaderLength(bytes[1]) + Length7(bytes[1])]
  {
    hide Unmasked, Length7, ExtendedLength, Waits, Masked, Header, Decoded, Short;
    DecodedIsShort(bytes);
    DecodedHeader(bytes);
    DecodedData(bytes);
  }

  /** Part of a frame does not hang. */
  lemma PartDoesNotHang(c: State, bytes: seq<bv8>)
    requires Proper(c) && c.phase == AwaitingFrame && !Waits(bytes) && ExtendedLength(bytes[1]) == 0
    requires |bytes| < HeaderLength(bytes[1]) + Length7(bytes[1])
    ensures Feed(c, bytes).0.phase == ReadingData
  {
    assert HeaderLength(bytes[1]) < |bytes|;
    hide AfterData, Waits;
    FeedHeader(c, bytes);
    var start := AfterHeader(c, bytes);
    FeedPart(start, bytes[HeaderLength(bytes[1])..]);
  }

  /** If a stream of any bytes hangs, it begins with frames that are followed by an extended length. */
  lemma {:induction false} HangsAfterFrames(c: State, r: Receiver, bytes: seq<bv8>) returns (frames: seq<Frame>, rest: seq<bv8>)
    requires Represents(c, r) && Feed(c, bytes).0.phase == Hung
    ensures AllShort(frames) && bytes == EncodeAll(frames) + rest && !ReceiveAll(r, frames).closed && Extended(rest)
    decreases |bytes|
  {
    hide Feed, Waits, AfterAll, Receive, Encode, HeaderLength, Length7, ExtendedLength, Extended, Represents, Short;
    HungMeansHeader(c, r, bytes);
    if ExtendedLength(bytes[1]) > 0 {
      frames, rest := [], bytes;
      assert EncodeAll(frames) + rest == bytes;
    } else {
      var f, after := FirstFrame(c, r, bytes);
      var more;
      more, rest := HangsAfterFrames(AfterAll(c, f), Receive(r, f), after);
      frames := [f] + more;
      assert frames[0] == f && frames[1..] == more;
      assert EncodeAll(frames) == Encode(f) + EncodeAll(more);
      assert EncodeAll(frames) + rest == Encode(f) + (EncodeAll(more) + rest);
    }
  }

  lemma HungMeansHeader(c: State, r: Receiver, bytes: seq<bv8>)
    requires Represents(c, r) && Feed(c, bytes).0.phase == Hung
    ensures !r.closed && !Waits(bytes) && |bytes| >= 2 && (ExtendedLength(bytes[1]) > 0 ==> Extended(bytes))
  {
  }

  lemma OpenAwaits(c: State, r: Receiver)
    requires Represents(c, r) && !r.closed
    ensures Proper(c) && c.phase == AwaitingFrame
  {
  }

  lemma FirstFrame(c: State, r: Receiver, bytes: seq<bv8>) returns (f: Frame, after: seq<bv8>)
    requires Represents(c, r) && !r.closed && |bytes| >= 2 && !Waits(bytes) && ExtendedLength(bytes[1]) == 0
    requires Feed(c, bytes).0.phase == Hung
    ensures Proper(c) && Short(f) && Encode(f) != [] && bytes == Encode(f) + after
    ensures Represents(AfterAll(c, f), Receive(r, f)) && Feed(c, bytes) == Feed(AfterAll(c, f), after)
  {
    hide Represents, Short, Feed, Waits, AfterAll, Receive, Encode, Masked, HeaderLength, Length7, ExtendedLength, Decoded;
    OpenAwaits(c, r);
    var n := HeaderLength(bytes[1]) + Length7(bytes[1]);
    if |bytes| < n {
      PartDoesNotHang(c, bytes);
    }
    f := Decoded(bytes);
    after := bytes[n..];
    DecodedIsEncoded(bytes);
    EncodeNotEmpty(f);
    WaitsForMore(f, bytes);
    AfterAllRepresents(c, r, f);
    FrameIsTaken(c, f, after);
    assert bytes == bytes[..n] + bytes[n..];
  }

  /** After the header there was something more. */
  lemma WaitsForMore(f: Frame, bytes: seq<bv8>)
    requires HasFrame(bytes)
    requires Short(f) && Encode(f) == bytes[..HeaderLength(bytes[1]) + Length7(bytes[1])] && f == Decoded(bytes)
    ensures Masked(f) + bytes[HeaderLength(bytes[1]) + Length7(bytes[1])..] != []
  {
    hide Unmasked, Header;
    assert |Masked(f)| == Length7(bytes[1]);
  }

  /**
    A connection hangs, however a stream of any bytes is cut into reads, if and only if
    the stream begins with frames of lengths of seven bits, none of which closes the
    connection, and goes on with a frame that has an extended length, all of that length
    and at least one byte more.
   */
  lemma HangsOnExtendedLength(chunks: seq<seq<bv8>>)
    ensures FeedAll(Start, [], chunks).0.phase == Hung
       <==> exists frames, rest :: AllShort(frames) && Concat(chunks) == EncodeAll(frames) + rest
                                   && !ReceiveAll(NewReceiver, frames).closed && Extended(rest)
  {
    hide Feed, EncodeAll, ReceiveAll, FeedAll, Concat, Extended;
    assert Feed(Start, []) == (Start, []) by { StartWaits(); }
    FeedAllConcat(Start, [], chunks);
    assert [] + Concat(chunks) == Concat(chunks);
    assert Represents(Start, NewReceiver);
    if Feed(Start, Concat(chunks)).0.phase == Hung {
      var frames, rest := HangsAfterFrames(Start, NewReceiver, Concat(chunks));
    }
    forall frames, rest | AllShort(frames) && Concat(chunks) == EncodeAll(frames) + rest
                          && !ReceiveAll(NewReceiver, frames).closed && Extended(rest)
      ensures Feed(Start, Concat(chunks)).0.phase == Hung
    {
      HangsThere(frames, rest);
    }
  }

  lemma HangsThere(frames: seq<Frame>, rest: seq<bv8>)
    requires AllShort(frames) && !ReceiveAll(NewReceiver, frames).closed && Extended(rest)
    ensures Feed(Start, EncodeAll(frames) + rest).0.phase == Hung
  {
    hide Feed, EncodeAll, ReceiveAll;
    FramesThen(Start, NewReceiver, frames, rest);
    var c' :| Represents(c', ReceiveAll(NewReceiver, frames)) && Feed(Start, EncodeAll(frames) + rest) == Feed(c', rest);
    ExtendedHangs(c', rest);
  }

  // ---------------------------------------------------------------- ticks

  /** The connection goes on reading. */
  predicate Live(phase: Phase) {
    phase == AwaitingFrame || phase == ReadingData
  }

  lemma EndedTakesNothing(c: State, bytes: seq<bv8>)
    requires Proper(c) && !Live(c.phase)
    ensures Feed(c, bytes) == (c, bytes)
  {
  }

  /** As many ticks as it takes to read some bytes that have come, unless the connection ends. */
  method ReadChunk(connection: Connection, chunk: seq<bv8>)
    requires connection.Valid() && (Live(connection.state) ==> connection.Settled()) && chunk != []
    modifies connection, connection.data
    ensures connection.Valid() && (Live(connection.state) ==> connection.Settled())
    ensures connection.Abs() == Feed(old(connection.Abs()), old(connection.Pending()) + chunk).0
    ensures Live(connection.state) ==> connection.Pending() == Feed(old(connection.Abs()), old(connection.Pending()) + chunk).1
  {
    hide Feed;
    var rest := chunk;
    ghost var c, bytes := connection.Abs(), connection.Pending() + chunk;
    while rest != [] && Live(connection.state)
      invariant connection.Valid() && (Live(connection.state) ==> connection.Settled())
      invariant Feed(c, bytes) == Feed(connection.Abs(), connection.Pending() + rest)
      invariant rest != chunk ==> Feed(connection.Abs(), connection.Pending()) == (connection.Abs(), connection.Pending())
      decreases |rest|
    {
      ghost var was, pending := connection.Abs(), connection.Pending();
      var taken := connection.Tick(rest);
      FeedConcat(was, pending + rest[..taken], rest[taken..]);
      assert pending + rest[..taken] + rest[taken..] == pending + rest;
      FeedIsDone(was, pending + rest[..taken]);
      rest := rest[taken..];
    }
    if Live(connection.state) {
      assert connection.Pending() + rest == connection.Pending();
    } else {
      EndedTakesNothing(connection.Abs(), connection.Pending() + rest);
    }
  }

  lemma EndedStays(c: State, pending: seq<bv8>, other: seq<bv8>, chunks: seq<seq<bv8>>)
    requires Proper(c) && !Live(c.phase)
    ensures FeedAll(c, pending, chunks).0 == c == FeedAll(c, other, chunks).0
    decreases |chunks|
  {
    if chunks != [] {
      EndedTakesNothing(c, pending + chunks[0]);
      EndedTakesNothing(c, other + chunks[0]);
      EndedStays(c, pending + chunks[0], other + chunks[0], chunks[1..]);
    }
  }

  /** A connection whose ticks find the chunks one after the other does what `FeedAll` says. */
  method ReadAll(chunks: seq<seq<bv8>>) returns (connection: Connection)
    requires forall i :: 0 <= i < |chunks| ==> chunks[i] != []
    ensures fresh(connection) && fresh(connection.data) && connection.Valid()
    ensures connection.Abs() == FeedAll(Start, [], chunks).0
    ensures Live(connection.state) ==> connection.Pending() == FeedAll(Start, [], chunks).1
  {
    hide Feed;
    connection := new Connection();
    for i := 0 to |chunks|
      invariant fresh(connection) && fresh(connection.data) && connection.Valid()
      invariant Live(connection.state) ==> connection.Settled()
      invariant FeedAll(connection.Abs(), connection.Pending(), chunks[i..]).0 == FeedAll(Start, [], chunks).0
      invariant Live(connection.state) ==> FeedAll(connection.Abs(), connection.Pending(), chunks[i..]) == FeedAll(Start, [], chunks)
    {
      ghost var was, pending := connection.Abs(), connection.Pending();
      ReadChunk(connection, chunks[i]);
      if !Live(was.phase) {
        EndedTakesNothing(was, pending + chunks[i]);
      }
      assert chunks[i..][1..] == chunks[i + 1..];
      if !Live(connection.state) {
        EndedStays(connection.Abs(), connection.Pending(), Feed(was, pending + chunks[i]).1, chunks[i + 1..]);
      }
    }
  }

  /** The ticks of a connection deliver and answer what a receiver of whole frames does, however the frames come. */
  method ReceiveFrames(chunks: seq<seq<bv8>>, ghost frames: seq<Frame>) returns (events: seq<Event>, phase: Phase)
    requires AllShort(frames) && Concat(chunks) == EncodeAll(frames)
    requires forall i :: 0 <= i < |chunks| ==> chunks[i] != []
    ensures events == ReceiveAll(NewReceiver, Acted(frames)).events
    ensures phase == if ReceiveAll(NewReceiver, Acted(frames)).closed then Closed else AwaitingFrame
  {
    hide FeedAll, ReceiveAll, EncodeAll, Concat, Acted;
    FramesReassemble(frames, chunks);
    var connection := ReadAll(chunks);
    assert connection.Abs().events == connection.events && connection.Abs().phase == connection.state;
    events, phase := connection.events, connection.state;
  }
}
