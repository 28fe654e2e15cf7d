/**
  The ring buffer through which the two threads talk.  One thread sends, the other
  receives, and neither ever waits: a message that finds the ring full is dropped.

  The protocol is modelled one memory access at a time, so that every interleaving
  of a sender and a receiver is a sequence of `Step`s.
 */
module MessageQueues {

  /** A ring of this many slots carries one message less. */
  const DEFAULT_CAPACITY: nat := 100


  /** A message as sent; a simple message leaves the parameter of its slot alone. */
  datatype Message = Simple(kind: int) | WithParam(kind: int, param: int)

  datatype Received = Received(kind: int, param: int)

  predicate Matches(received: Received, sent: Message) {
    received.kind == sent.kind && (sent.WithParam? ==> received.param == sent.param)
  }

  /** Where the sender is in `send`: it has a free slot, has written the type, or has written everything. */
  datatype Sender = NotSending | HasSlot(message: Message) | WroteKind(message: Message) | WroteAll(message: Message)

  /** Where the receiver is: it has seen a message, has read its type, or has read everything. */
  datatype Receiver = NotReceiving | SawMessage | ReadKind(kind: int) | ReadAll(kind: int, param: int)

  /** The shared memory, where both threads are, and the history of the messages. */
  datatype Ring = Ring(kinds: seq<int>, params: seq<int>, head: nat, tail: nat, sender: Sender, receiver: Receiver,
                       accepted: seq<Message>, received: seq<Received>)
  {
    function Capacity(): nat {
      |kinds|
    }

    predicate IsEmpty() {
      tail == head
    }

    predicate IsFull()
      requires Capacity() > 0
    {
      (tail + 1) % Capacity() == head
    }

    /** The bounded FIFO that the ring implements. */
    ghost function Queue(): seq<Message>
      requires |received| <= |accepted|
    {
      accepted[|received|..]
    }
  }

  datatype Step =
    | ReadHead(message: Message)     // sender: is there room?  If not, drop the message.
    | WriteKind | WriteParam         // sender: fill the slot at the tail
    | PublishTail                    // sender: push()
    | ReadTail                       // receiver: is there a message?
    | ReadSlotKind | ReadSlotParam   // receiver: read the slot at the head
    | AdvanceHead                    // receiver: pop()

  ghost predicate Enabled(ring: Ring, step: Step) {
    match step
    case ReadHead(_) => ring.sender == NotSending
    case WriteKind => ring.sender.HasSlot?
    case WriteParam => ring.sender.WroteKind?
    case PublishTail => ring.sender.WroteAll?
    case ReadTail => ring.receiver == NotReceiving
    case ReadSlotKind => ring.receiver.SawMessage?
    case ReadSlotParam => ring.receiver.ReadKind?
    case AdvanceHead => ring.receiver.ReadAll?
  }

  ghost predicate InBounds(ring: Ring) {
    0 < ring.Capacity() == |ring.params| && ring.head < ring.Capacity() && ring.tail < ring.Capacity()
  }

  ghost function Next(ring: Ring, step: Step): Ring
    requires InBounds(ring) && Enabled(ring, step)
  {
    match step
    case ReadHead(message) =>
      if ring.IsFull() then ring else ring.(sender := HasSlot(message))
    case WriteKind =>
      var message := ring.sender.message;
      ring.(kinds := ring.kinds[ring.tail := message.kind],
      sender := if message.Simple? then WroteAll(message) else WroteKind(message))
    case WriteParam =>
      var message := ring.sender.message;
      ring.(params := if message.WithParam? then ring.params[ring.tail := message.param] else ring.params,
      sender := WroteAll(message))
    case PublishTail =>
      ring.(tail := (ring.tail + 1) % ring.Capacity(), sender := NotSending,
      accepted := ring.accepted + [ring.sender.message])
    case ReadTail =>
      if ring.IsEmpty() then ring else ring.(receiver := SawMessage)
    case ReadSlotKind =>
      ring.(receiver := ReadKind(ring.kinds[ring.head]))
    case ReadSlotParam =>
      ring.(receiver := ReadAll(ring.receiver.kind, ring.params[ring.head]))
    case AdvanceHead =>
      ring.(head := (ring.head + 1) % ring.Capacity(), receiver := NotReceiving,
      received := ring.received + [Received(ring.receiver.kind, ring.receiver.param)])
  }

  // ---------------------------------------------------------------- the invariant

  ghost predicate SlotHolds(ring: Ring, slot: nat, message: Message)
    requires slot < |ring.kinds| == |ring.params|
  {
    Matches(Received(ring.kinds[slot], ring.params[slot]), message)
  }

  ghost predicate Inv(ring: Ring) {
    var n := ring.Capacity();
    && InBounds(ring)
    && |ring.received| <= |ring.accepted| < |ring.received| + n
    && ring.head == |ring.received| % n && ring.tail == |ring.accepted| % n
    && (forall i :: |ring.received| <= i < |ring.accepted| ==> SlotHolds(ring, i % n, ring.accepted[i]))
    && (forall i :: 0 <= i < |ring.received| ==> Matches(ring.received[i], ring.accepted[i]))
    && SenderInv(ring) && ReceiverInv(ring)
  }

  ghost predicate SenderInv(ring: Ring)
    requires InBounds(ring)
  {
    && (ring.sender != NotSending ==> |ring.accepted| + 1 < |ring.received| + ring.Capacity())
    && (ring.sender.WroteKind? ==> ring.kinds[ring.tail] == ring.sender.message.kind)
    && (ring.sender.WroteAll? ==> SlotHolds(ring, ring.tail, ring.sender.message))
  }

  ghost predicate ReceiverInv(ring: Ring) {
    && (ring.receiver != NotReceiving ==> |ring.received| < |ring.accepted|)
    && (ring.receiver.ReadKind? ==> ring.receiver.kind == ring.accepted[|ring.received|].kind)
    && (ring.receiver.ReadAll? ==>
          Matches(Received(ring.receiver.kind, ring.receiver.param), ring.accepted[|ring.received|]))
  }

  lemma Times(n: nat, d: int)
    requires 0 < n
    ensures d >= 2 ==> n < n * d
    ensures d == 1 ==> n * d == n
    ensures d <= -1 ==> n * d < 0
  {
  }

  lemma SameRemainder(a: nat, b: nat, n: nat)
    requires 0 < n && a <= b <= a + n && a % n == b % n
    ensures b == a || b == a + n
  {
    Times(n, b / n - a / n);
    assert b - a == n * (b / n - a / n);
  }

  lemma DivMod(a: nat, n: nat, q: nat, r: nat)
    requires 0 < n && r < n && a == n * q + r
    ensures a % n == r
  {
    Times(n, q - a / n);
    assert r - a % n == n * (a / n - q);
    Times(n, a / n - q);
  }

  lemma NextRemainder(a: nat, n: nat)
    requires 0 < n
    ensures (a % n + 1) % n == (a + 1) % n
  {
    if a % n + 1 < n {
      DivMod(a + 1, n, a / n, a % n + 1);
    } else {
      assert n * (a / n + 1) == a + 1;
      DivMod(a + 1, n, a / n + 1, 0);
    }
  }

  lemma AddModulus(a: nat, n: nat)
    requires 0 < n
    ensures (a + n) % n == a % n
  {
    assert n * (a / n + 1) == n * (a / n) + n;
    DivMod(a + n, n, a / n + 1, a % n);
  }

  /** Free slots are not unread slots: the slot at the tail belongs to the sender. */
  lemma TailIsFree(ring: Ring, i: nat)
    requires Inv(ring) && |ring.received| <= i < |ring.accepted|
    ensures i % ring.Capacity() != ring.tail
  {
    if i % ring.Capacity() == ring.tail {
      SameRemainder(i, |ring.accepted|, ring.Capacity());
    }
  }

  lemma SenderKeepsInv(ring: Ring, step: Step)
    requires Inv(ring) && Enabled(ring, step)
    requires step.ReadHead? || step.WriteKind? || step.WriteParam? || step.PublishTail?
    ensures Inv(Next(ring, step))
  {
    var n := ring.Capacity();
    NextRemainder(|ring.accepted|, n);
    AddModulus(|ring.received|, n);
    forall i: nat | |ring.received| <= i < |ring.accepted|
      ensures i % n != ring.tail
    {
      TailIsFree(ring, i);
    }
  }

  lemma ReceiverKeepsInv(ring: Ring, step: Step)
    requires Inv(ring) && Enabled(ring, step)
    requires step.ReadTail? || step.ReadSlotKind? || step.ReadSlotParam? || step.AdvanceHead?
    ensures Inv(Next(ring, step))
  {
    var n := ring.Capacity();
    NextRemainder(|ring.received|, n);
    if |ring.received| < |ring.accepted| {
      assert SlotHolds(ring, |ring.received| % n, ring.accepted[|ring.received|]);
    }
  }

  lemma StepKeepsInv(ring: Ring, step: Step)
    requires Inv(ring) && Enabled(ring, step)
    ensures Inv(Next(ring, step))
  {
    if step.ReadHead? || step.WriteKind? || step.WriteParam? || step.PublishTail? {
      SenderKeepsInv(ring, step);
    } else {
      ReceiverKeepsInv(ring, step);
    }
  }

  /**
    The ring refines a bounded FIFO of `Capacity() - 1` messages.  Publishing the tail
    enqueues, advancing the head dequeues the oldest message, nothing else changes the
    queue; a message is dropped only when the queue is full at the moment the head is
    read, and the ring looks empty only when the queue is empty.
   */
  lemma RefinesBoundedFifo(ring: Ring, step: Step)
    requires Inv(ring) && Enabled(ring, step)
    ensures Inv(Next(ring, step)) && |ring.Queue()| <= ring.Capacity() - 1
    ensures var queue, ring' := ring.Queue(), Next(ring, step);
            match step
            case ReadHead(_) => ring'.Queue() == queue && (ring' == ring <==> |queue| == ring.Capacity() - 1)
            case PublishTail => ring'.Queue() == queue + [ring.sender.message] && |queue| < ring.Capacity() - 1
            case ReadTail => ring'.Queue() == queue && (ring' == ring <==> queue == [])
            case AdvanceHead =>
              && queue != [] && ring'.Queue() == queue[1..]
              && Matches(ring'.received[|ring.received|], queue[0])
            case _ => ring'.Queue() == queue
  {
    StepKeepsInv(ring, step);
    var n := ring.Capacity();
    if step.ReadHead? {
      NextRemainder(|ring.accepted|, n);
      AddModulus(|ring.received|, n);
      if ring.IsFull() {
        SameRemainder(|ring.received|, |ring.accepted| + 1, n);
      }
    } else if step.ReadTail? && ring.IsEmpty() {
      SameRemainder(|ring.received|, |ring.accepted|, n);
    }
  }

  /** No step of the sender changes a slot whose message has not been received. */
  lemma UnreadSlotsAreStable(ring: Ring, step: Step, i: nat)
    requires Inv(ring) && Enabled(ring, step)
    requires |ring.received| <= i < |ring.accepted|
    ensures var ring', slot := Next(ring, step), i % ring.Capacity();
            ring'.kinds[slot] == ring.kinds[slot] && ring'.params[slot] == ring.params[slot]
  {
    TailIsFree(ring, i);
  }

  // ---------------------------------------------------------------- whole runs

  ghost predicate Initial(ring: Ring) {
    && 0 < |ring.kinds| == |ring.params| && ring.head == ring.tail == 0
    && ring.sender == NotSending && ring.receiver == NotReceiving
    && ring.accepted == [] && ring.received == []
  }

  ghost predicate IsRun(rings: seq<Ring>, steps: seq<Step>) {
    && |rings| == |steps| + 1 && Initial(rings[0])
    && forall i :: 0 <= i < |steps| ==>
         InBounds(rings[i]) && Enabled(rings[i], steps[i]) && rings[i + 1] == Next(rings[i], steps[i])
  }

  /**
    In every interleaving, the messages received are a prefix of the messages
    accepted, and fewer than `Capacity()` are under way.
   */
  lemma {:induction false} ReceivesPrefixOfAccepted(rings: seq<Ring>, steps: seq<Step>, k: nat)
    requires IsRun(rings, steps) && k < |rings|
    ensures Inv(rings[k])
    ensures |rings[k].received| <= |rings[k].accepted| <= |rings[k].received| + rings[0].Capacity() - 1
    ensures forall i :: 0 <= i < |rings[k].received| ==> Matches(rings[k].received[i], rings[k].accepted[i])
    ensures rings[k].Capacity() == rings[0].Capacity()
  {
    if k > 0 {
      ReceivesPrefixOfAccepted(rings, steps, k - 1);
      StepKeepsInv(rings[k - 1], steps[k - 1]);
    }
  }

  // ---------------------------------------------------------------- the queue object

  lemma InvIsInBounds(ring: Ring)
    requires Inv(ring)
    ensures InBounds(ring)
  {
  }

  class MessageQueue {
    const kinds: array<int>
    const params: array<int>
    var head: nat
    var tail: nat
    ghost var accepted: seq<Message>
    ghost var received: seq<Received>

    ghost function View(): Ring
      reads this, kinds, params
    {
      Ring(kinds[..], params[..], head, tail, NotSending, NotReceiving, accepted, received)
    }

    ghost predicate Valid()
      reads this, kinds, params
    {
      kinds != params && Inv(View())
    }

    constructor (capacity: nat)
      requires 0 < capacity
      ensures Valid() && Initial(View()) && View().Capacity() == capacity
      ensures fresh(kinds) && fresh(params)
    {
      kinds, params := new int[capacity](_ => 0), new int[capacity](_ => 0);
      head, tail := 0, 0;
      accepted, received := [], [];
    }

    predicate IsEmpty()
      reads this
    {
      tail == head
    }

    predicate IsFull()
      reads this
      requires 0 < kinds.Length
    {
      (tail + 1) % kinds.Length == head
    }

    /** A send that is not interrupted is the sender's steps in order. */
    method Send(message: Message)
      requires Valid()
      modifies this, kinds, params
      ensures Valid()
      ensures var before := old(View());
              if before.IsFull() then View() == before
              else
                var written := Next(Next(before, ReadHead(message)), WriteKind);
                View() == Next(if message.Simple? then written else Next(written, WriteParam), PublishTail)
    {
      hide Inv;
      ghost var ring := View();
      InvIsInBounds(ring);
      if !IsFull() {
        RefinesBoundedFifo(ring, ReadHead(message));
        ring := Next(ring, ReadHead(message));
        StepKeepsInv(ring, WriteKind);
        ring := Next(ring, WriteKind);
        kinds[tail] := message.kind;
        if message.WithParam? {
          StepKeepsInv(ring, WriteParam);
          ring := Next(ring, WriteParam);
          params[tail] := message.param;
        }
        StepKeepsInv(ring, PublishTail);
        tail := (tail + 1) % kinds.Length;
        accepted := accepted + [message];
      }
    }

    /** Takes the oldest message, or nothing when the ring looks empty. */
    method Receive() returns (got: bool, message: Received)
      requires Valid()
      modifies this
      ensures Valid()
      ensures got == (old(View()).Queue() != [])
      ensures got ==> Matches(message, old(View()).Queue()[0]) && View().Queue() == old(View()).Queue()[1..]
      ensures !got ==> View() == old(View())
    {
      message := Received(0, 0);
      ghost var ring := View();
      RefinesBoundedFifo(ring, ReadTail);
      got := !IsEmpty();
      if got {
        ring := Next(ring, ReadTail);
        StepKeepsInv(ring, ReadSlotKind);
        ring := Next(ring, ReadSlotKind);
        StepKeepsInv(ring, ReadSlotParam);
        ring := Next(ring, ReadSlotParam);
        message := Received(kinds[head], params[head]);
        RefinesBoundedFifo(ring, AdvanceHead);
        head := (head + 1) % kinds.Length;
        received := received + [message];
        assert View() == Next(ring, AdvanceHead);
      }
    }
  }
}
