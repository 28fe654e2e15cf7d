/**
  The WebSocket side of a connection.  Bytes are read from the socket into a buffer as
  they come, frames are taken from it as far as they have arrived, and messages are
  put together from the payloads of their frames.
 */
module WebSockets {

  const BUFFER_SIZE: nat := 1024
  const COMPACTION_POINT: nat := BUFFER_SIZE / 2

  const CONTINUATION: bv8 := 0x0
  const TEXT: bv8 := 0x1
  const BINARY: bv8 := 0x2
  const CLOSE_CONNECTION: bv8 := 0x8
  const PING: bv8 := 0x9
  const PONG: bv8 := 0xA

  /** What a connection does: hand a message on, or reply to a control frame. */
  datatype Event = Message(data: seq<bv8>) | Reply(opcode: bv8, payload: seq<bv8>)

  /** `Hung` is the endless loop that an extended length leads to. */
  datatype Phase = AwaitingFrame | ReadingData | Closed | Hung

  /** What a connection knows between two bytes. */
  datatype State = State(
    phase: Phase,
    final: bool, masked: bool, opcode: bv8, remaining: nat, key: seq<bv8>, maskPhase: nat,
    frameData: seq<bv8>, controlData: seq<bv8>,
    events: seq<Event>)

  ghost predicate Proper(c: State) {
    |c.key| == 4 && c.maskPhase < 4
  }

  predicate IsControl(opcode: bv8) {
    opcode != TEXT && opcode != BINARY && opcode != CONTINUATION
  }

  function Length7(b: bv8): (n: nat)
    ensures n < 128
  {
    (b & 0x7F) as nat
  }

  /** How many bytes of extended length follow. */
  function ExtendedLength(b: bv8): nat {
    if Length7(b) == 126 then 2 else if Length7(b) == 127 then 8 else 0
  }

  function HeaderLength(b: bv8): nat {
    if b & 0x80 != 0 then 6 else 2
  }

  /** Whether one has to wait: for the rest of the header and one byte more. */
  predicate Waits(bytes: seq<bv8>) {
    |bytes| < 2 || 2 + ExtendedLength(bytes[1]) >= |bytes| || (ExtendedLength(bytes[1]) == 0 && HeaderLength(bytes[1]) >= |bytes|)
  }

  function Unmasked(data: seq<bv8>, key: seq<bv8>, phase: nat): (r: seq<bv8>)
    requires |key| == 4
    ensures |r| == |data|
  {
    seq(|data|, i requires 0 <= i < |data| => data[i] ^ key[(phase + i) % 4])
  }

  /** The state after the header at the front of `bytes`. */
  function AfterHeader(c: State, bytes: seq<bv8>): (r: State)
    requires !Waits(bytes) && ExtendedLength(bytes[1]) == 0
    requires Proper(c)
    ensures Proper(r)
  {
    var opcode := bytes[0] & 0x7F;
    var masked := bytes[1] & 0x80 != 0;
    c.(phase := ReadingData, final := bytes[0] & 0x80 != 0, masked := masked, opcode := opcode, remaining := Length7(bytes[1]),
    key := if masked then bytes[2..6] else c.key, maskPhase := 0,
    frameData := if opcode == TEXT || opcode == BINARY then [] else c.frameData, controlData := [])
  }

  /** The state after some of the payload. */
  function AfterData(c: State, data: seq<bv8>): (r: State)
    requires Proper(c) && |data| <= c.remaining
    ensures Proper(r) && r.phase == c.phase && r.remaining == c.remaining - |data|
  {
    var plain := if c.masked then Unmasked(data, c.key, c.maskPhase) else data;
    c.(remaining := c.remaining - |data|, maskPhase := if c.masked then (c.maskPhase + |data|) % 4 else c.maskPhase,
    controlData := if IsControl(c.opcode) then c.controlData + plain else c.controlData,
    frameData := if IsControl(c.opcode) then c.frameData else c.frameData + plain)
  }

  /** What is done about a frame that is complete. */
  function AfterFrame(c: State): (r: State)
    ensures (Proper(c) ==> Proper(r)) && (r.phase == AwaitingFrame || r.phase == Closed)
  {
    if !IsControl(c.opcode) then
      c.(phase := AwaitingFrame, events := if c.final then c.events + [Message(c.frameData)] else c.events)
    else if c.opcode == CLOSE_CONNECTION then
      c.(phase := Closed, events := c.events + [Reply(CLOSE_CONNECTION, c.controlData)])
    else if c.opcode == PING then
      c.(phase := AwaitingFrame, events := c.events + [Reply(PONG, c.controlData)])
    else c.(phase := AwaitingFrame)
  }

  function Min(a: nat, b: nat): nat {
    if a < b then a else b
  }

  /** Takes frames from `bytes` as far as they go; what is not taken yet is left over. */
  function Feed(c: State, bytes: seq<bv8>): (r: (State, seq<bv8>))
    requires Proper(c)
    ensures Proper(r.0)
    decreases |bytes|, if c.phase == ReadingData then 1 else 0
  {
    match c.phase
    case AwaitingFrame =>
      if Waits(bytes) then (c, bytes)
      else if ExtendedLength(bytes[1]) > 0 then (c.(phase := Hung), bytes)
      else Feed(AfterHeader(c, bytes), bytes[HeaderLength(bytes[1])..])
    case ReadingData =>
      var n := Min(|bytes|, c.remaining);
      var c := AfterData(c, bytes[..n]);
      if c.remaining > 0 then (c, bytes[n..]) else Feed(AfterFrame(c), bytes[n..])
    case _ => (c, bytes)
  }

  lemma UnmaskedIs(data: seq<bv8>, plain: seq<bv8>, key: seq<bv8>, phase: nat)
    requires |key| == 4 && |plain| == |data|
    requires forall i :: 0 <= i < |data| ==> plain[i] == data[i] ^ key[(phase + i) % 4]
    ensures plain == Unmasked(data, key, phase)
  {
  }

  /** Unmasks a part of an array in place; `phase` is where in the key one is. */
  method Unmask(data: array<bv8>, start: nat, stopper: nat, key: seq<bv8>, phase: nat) returns (after: nat)
    requires start <= stopper <= data.Length && |key| == 4 && phase < 4
    modifies data
    ensures forall i :: 0 <= i < start || stopper <= i < data.Length ==> data[i] == old(data[i])
    ensures forall i :: start <= i < stopper ==> data[i] == old(data[i]) ^ key[(phase + (i - start)) % 4]
    ensures after == (phase + (stopper - start)) % 4
  {
    var p := start;
    after := phase;
    while p < stopper
      invariant start <= p <= stopper && after == (phase + (p - start)) % 4
      invariant forall i :: 0 <= i < start || p <= i < data.Length ==> data[i] == old(data[i])
      invariant forall i :: start <= i < p ==> data[i] == old(data[i]) ^ key[(phase + (i - start)) % 4]
    {
      data[p] := data[p] ^ key[after];
      p := p + 1;
      after := after + 1;
      if after >= 4 {
        after := 0;
      }
    }
  }

  lemma AfterDataIs(c: State, data: seq<bv8>, plain: seq<bv8>)
    requires Proper(c) && |data| <= c.remaining
    requires plain == if c.masked then Unmasked(data, c.key, c.maskPhase) else data
    ensures AfterData(c, data) == c.(
            remaining := c.remaining - |data|,
            maskPhase := if c.masked then (c.maskPhase + |data|) % 4 else c.maskPhase,
            controlData := if IsControl(c.opcode) then c.controlData + plain else c.controlData,
            frameData := if IsControl(c.opcode) then c.frameData else c.frameData + plain)
  {
  }

  class Connection {
    const data: array<bv8>
    var read: nat
    var filled: nat
    var state: Phase
    var maskingKey: seq<bv8>
    var maskPhase: nat
    var frameIsFinal: bool
    var frameIsMasked: bool
    var frameOpcode: bv8
    var frameLengthRemaining: nat
    var frameData: seq<bv8>
    var controlFrameData: seq<bv8>
    /** What was handed to the DAW and what was sent to the client. */
    var events: seq<Event>

    constructor ()
      ensures Valid() && fresh(data) && Settled()
      ensures Abs() == State(AwaitingFrame, false, false, 0, 0, [0, 0, 0, 0], 0, [], [], []) && Pending() == []
    {
      data := new bv8[BUFFER_SIZE];
      read, filled, state := 0, 0, AwaitingFrame;
      maskingKey, maskPhase, frameIsFinal, frameIsMasked, frameOpcode, frameLengthRemaining := [0, 0, 0, 0], 0, false, false, 0, 0;
      frameData, controlFrameData, events := [], [], [];
    }

    ghost predicate Valid()
      reads this
    {
      data.Length == BUFFER_SIZE && read <= filled <= BUFFER_SIZE && |maskingKey| == 4 && maskPhase < 4
    }

    /** How the buffer is found between two reads: there is room in it. */
    ghost predicate Settled()
      reads this
    {
      filled - read <= 10 && filled <= COMPACTION_POINT + 9
    }

    ghost function Abs(): State
      reads this
    {
      State(state, frameIsFinal, frameIsMasked, frameOpcode, frameLengthRemaining, maskingKey, maskPhase,
            frameData, controlFrameData, events)
    }

    ghost function Pending(): seq<bv8>
      reads this, data
      requires Valid()
    {
      data[read..filled]
    }

    /** Reads a frame's header, if there is all of it, and goes on to its data. */
    method ProcessWebSocketFrame()
      requires Valid() && state == AwaitingFrame
      modifies this, data
      ensures Valid() && (Abs(), Pending()) == Feed(old(Abs()), old(Pending()))
      decreases filled - read, 0
    {
      hide AfterHeader, AfterData, AfterFrame, Waits;
      var started := ReadHeader();
      if started {
        ReadWebSocketData();
      }
    }

    method ReadHeader() returns (started: bool)
      requires Valid() && state == AwaitingFrame
      modifies this
      ensures Valid() && filled == old(filled)
      ensures started <==> !Waits(old(Pending())) && ExtendedLength(old(Pending())[1]) == 0
      ensures started ==>
                && state == ReadingData && read > old(read)
                && Abs() == AfterHeader(old(Abs()), old(Pending()))
                && Pending() == old(Pending())[HeaderLength(old(Pending())[1])..]
      ensures !started ==>
                && Pending() == old(Pending())
                && Abs() == if Waits(old(Pending())) then old(Abs()) else old(Abs()).(phase := Hung)
    {
      ghost var bytes := Pending();
      if filled - read < 2 {
        return false;
      }
      var p := read;
      var finalFragment := data[p] & 0x80 != 0;
      var opcode := data[p] & 0x7F;
      p := p + 1;
      var isMasked := data[p] & 0x80 != 0;
      var length := Length7(data[p]);
      var lengthLeftToRead := ExtendedLength(data[p]);
      p := p + 1;
      if p + lengthLeftToRead >= filled {
        return false;
      }
      if lengthLeftToRead > 0 {
        state := Hung;
        return false;
      }
      if isMasked {
        if p + 4 >= filled {
          return false;
        }
        assert p == read + 2 && |bytes| >= 6 && |data[p..p + 4]| == 4;
        assert forall i :: 2 <= i < 6 ==> data[p..p + 4][i - 2] == data[read + i] == bytes[i];
        assert data[p..p + 4] == bytes[2..6];
        maskingKey := data[p..p + 4];
        p := p + 4;
      }
      assert data[p..filled] == bytes[p - read..];
      StartFrame(p, finalFragment, isMasked, opcode, length);
      return true;
    }

    /** The header was read; the data begins at `p`. */
    method StartFrame(p: nat, finalFragment: bool, isMasked: bool, opcode: bv8, length: nat)
      requires Valid() && read <= p <= filled
      modifies this
      ensures Valid() && read == p && filled == old(filled)
      ensures Abs() == old(Abs()).(
              phase := ReadingData, final := finalFragment, masked := isMasked, opcode := opcode, remaining := length, maskPhase := 0,
              frameData := if opcode == TEXT || opcode == BINARY then [] else old(frameData), controlData := [])
    {
      read := p;
      frameIsFinal, frameIsMasked, maskPhase, frameOpcode, frameLengthRemaining := finalFragment, isMasked, 0, opcode, length;
      if opcode == TEXT || opcode == BINARY {
        frameData := [];
      }
      controlFrameData := [];
      state := ReadingData;
    }

    /** Takes as much of the frame's data as there is. */
    method ReadWebSocketData()
      requires Valid() && state == ReadingData
      modifies this, data
      ensures Valid() && (Abs(), Pending()) == Feed(old(Abs()), old(Pending()))
      decreases filled - read, 1
    {
      ghost var before, bytes := Abs(), Pending();
      var length := TakeData();
      assert bytes[..length] + bytes[length..] == bytes;
      if frameLengthRemaining > 0 {
        return;
      }
      FinishFrame();
      if state != Closed {
        ProcessWebSocketFrame();
      }
    }

    /** Takes off the mask, if there is one, of the data at the front of what is pending. */
    method UnmaskFront(length: nat)
      requires Valid() && length <= filled - read
      modifies data, this`maskPhase
      ensures Valid()
      ensures data[read..read + length] == (
                var front := old(Pending())[..length];
                if frameIsMasked then Unmasked(front, maskingKey, old(maskPhase)) else front)
      ensures data[read + length..filled] == old(Pending())[length..]
      ensures maskPhase == if frameIsMasked then (old(maskPhase) + length) % 4 else old(maskPhase)
    {
      hide Unmasked;
      ghost var bytes := data[read..filled];
      assert data[read..read + length] == bytes[..length];
      assert data[read + length..filled] == bytes[length..];
      if frameIsMasked {
        ghost var phase := maskPhase;
        maskPhase := Unmask(data, read, read + length, maskingKey, maskPhase);
        ghost var plain := data[read..read + length];
        forall i | 0 <= i < length ensures plain[i] == bytes[i] ^ maskingKey[(phase + i) % 4] {
          assert plain[i] == data[read + i] && bytes[i] == old(data[read + i]);
          assert read + i - read == i;
        }
        UnmaskedIs(bytes[..length], plain, maskingKey, phase);
      }
    }

    /** Appends what has come of the data to where it belongs. */
    method Append(plain: seq<bv8>)
      requires Valid() && |plain| <= filled - read && |plain| <= frameLengthRemaining
      modifies this`frameData, this`controlFrameData, this`read, this`frameLengthRemaining
      ensures Valid() && read == old(read) + |plain|
      ensures Abs() == old(Abs()).(
              remaining := old(frameLengthRemaining) - |plain|,
              controlData := if IsControl(frameOpcode) then old(controlFrameData) + plain else old(controlFrameData),
              frameData := if IsControl(frameOpcode) then old(frameData) else old(frameData) + plain)
    {
      hide IsControl;
      if IsControl(frameOpcode) {
        controlFrameData := controlFrameData + plain;
      } else {
        frameData := frameData + plain;
      }
      read := read + |plain|;
      frameLengthRemaining := frameLengthRemaining - |plain|;
    }

    method TakeData() returns (length: nat)
      requires Valid() && state == ReadingData
      modifies this, data
      ensures Valid() && length == Min(|old(Pending())|, old(frameLengthRemaining))
      ensures Abs() == AfterData(old(Abs()), old(Pending())[..length])
      ensures Pending() == old(Pending())[length..] && read == old(read) + length && filled == old(filled)
    {
      hide Unmasked, IsControl, AfterData;
      ghost var before, bytes := Abs(), Pending();
      length := filled - read;
      if length > frameLengthRemaining {
        length := frameLengthRemaining;
      }
      UnmaskFront(length);
      var plain := data[read..read + length];
      Append(plain);
      AfterDataIs(before, bytes[..length], plain);
    }

    method FinishFrame()
      requires Valid()
      modifies this
      ensures Valid() && Abs() == AfterFrame(old(Abs())) && read == old(read) && filled == old(filled)
      ensures state == AwaitingFrame || state == Closed
    {
      state := AwaitingFrame;
      if !IsControl(frameOpcode) {
        if frameIsFinal {
          events := events + [Message(frameData)];
        }
      } else if frameOpcode == CLOSE_CONNECTION {
        events := events + [Reply(CLOSE_CONNECTION, controlFrameData)];
        state := Closed;
      } else if frameOpcode == PING {
        events := events + [Reply(PONG, controlFrameData)];
      }
    }

    /** Moves what is left to the front of the buffer, once the front is long enough. */
    method CompactBuffer()
      requires Valid()
      modifies this`read, this`filled, data
      ensures Valid() && Pending() == old(Pending())
      ensures filled - read == old(filled - read) && read < COMPACTION_POINT
    {
      if read >= filled {
        read, filled := 0, 0;
        return;
      }
      if BUFFER_SIZE - read > COMPACTION_POINT {
        return;
      }
      var bytesRemaining := filled - read;
      ghost var bytes := data[read..filled];
      forall i | 0 <= i < bytesRemaining {
        data[i] := data[read + i];
      }
      assert data[0..bytesRemaining] == bytes;
      read := 0;
      filled := bytesRemaining;
    }

    /** One read from the socket, of which `available` is what has come; nothing means that the client closed the connection. */
    method Tick(available: seq<bv8>) returns (taken: nat)
      requires Valid() && Settled() && (state == AwaitingFrame || state == ReadingData)
      modifies this, data
      ensures Valid() && taken == Min(|available|, BUFFER_SIZE - old(filled))
      ensures available == [] ==> state == Closed && events == old(events)
      ensures available != [] ==> taken > 0 && (Abs(), Pending()) == Feed(old(Abs()), old(Pending()) + available[..taken])
      ensures state == AwaitingFrame || state == ReadingData ==> Settled()
    {
      ghost var pending := Pending();
      taken := Min(|available|, BUFFER_SIZE - filled);
      forall i | 0 <= i < taken {
        data[filled + i] := available[i];
      }
      if taken == 0 {
        state := Closed;
      }
      filled := filled + taken;
      assert data[read..filled] == pending + available[..taken];
      if state == AwaitingFrame {
        ProcessWebSocketFrame();
      } else if state == ReadingData {
        ReadWebSocketData();
      }
      if taken > 0 {
        LeftoverIsShort(old(Abs()), pending + available[..taken]);
      }
      CompactBuffer();
    }
  }

  /** What is left over is less than a header and one byte, unless the connection has ended. */
  lemma {:induction false} LeftoverIsShort(c: State, bytes: seq<bv8>)
    requires Proper(c)
    ensures var (c', rest) := Feed(c, bytes);
            && (c'.phase == ReadingData ==> rest == [])
            && (c'.phase == AwaitingFrame ==> Waits(rest) && |rest| <= 10)
    decreases |bytes|, if c.phase == ReadingData then 1 else 0
  {
    if c.phase == AwaitingFrame {
      if !Waits(bytes) && ExtendedLength(bytes[1]) == 0 {
        LeftoverIsShort(AfterHeader(c, bytes), bytes[HeaderLength(bytes[1])..]);
      }
    } else if c.phase == ReadingData {
      var n := Min(|bytes|, c.remaining);
      var c1 := AfterData(c, bytes[..n]);
      if c1.remaining == 0 {
        LeftoverIsShort(AfterFrame(c1), bytes[n..]);
      }
    }
  }
}
