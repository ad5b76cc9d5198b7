/**
  The lock-protected part of the owned-bytes channel: its decisions as functions of the abstract
  core, the sequential model that the repository's property test describes, and the class that
  works in place on the ring and its byte budget.
 */
module BytesCores {
  import opened Threads
  import opened Rings

  newtype byte = x: int | 0 <= x < 256
  type Bytes = seq<byte>

  /** A native copy. Only `data` exists at run time; the rest says which send made the copy. */
  datatype Message = Message(data: Bytes, copy: nat, sender: nat, number: nat)

  datatype Core = Core(
    capacity: nat, maxMessage: nat, maxQueued: nat,
    queue: seq<Message>, queuedBytes: int, senders: int, receiverAlive: bool, closed: bool)
  {
    predicate IsOpen() { !closed && receiverAlive }

    /** `sync_owned_bytes_has_byte_capacity` */
    predicate HasByteCapacity(length: nat) { length <= maxQueued - queuedBytes }

    function Pushed(m: Message): Core {
      this.(queue := queue + [m], queuedBytes := queuedBytes + |m.data|)
    }

    function Popped(): Core
      requires queue != []
    {
      this.(queue := queue[1..], queuedBytes := queuedBytes - |queue[0].data|)
    }

    function SenderGone(): Core { this.(senders := senders - 1, closed := closed || senders == 1) }
    function ReceiverGone(): Core { this.(receiverAlive := false, closed := closed || receiverAlive) }
  }

  /** The bytes held by a queue. */
  function Total(q: seq<Message>): nat {
    if q == [] then 0 else |q[0].data| + Total(q[1..])
  }

  lemma {:induction false} TotalPush(q: seq<Message>, m: Message)
    ensures Total(q + [m]) == Total(q) + |m.data|
  {
    if q == [] {
      assert q + [m] == [m];
    } else {
      assert (q + [m])[1..] == q[1..] + [m];
      TotalPush(q[1..], m);
    }
  }

  datatype Verdict = TooLarge | Wait | Closed | Full | ByteLimit | Fits

  /** Which way a pass of submit leaves its tests. */
  function Judge(c: Core, length: nat, block: bool): Verdict {
    var noRoom := |c.queue| == c.capacity || !c.HasByteCapacity(length);
    if length > c.maxMessage then TooLarge
    else if block && !c.closed && c.receiverAlive && noRoom then Wait
    else if c.closed || !c.receiverAlive then Closed
    else if |c.queue| == c.capacity then Full
    else if !c.HasByteCapacity(length) then ByteLimit
    else Fits
  }

  /** The native result code of a submit that returns. */
  function Code(v: Verdict): nat {
    match v
    case Fits => 0
    case Full => 1
    case Closed | Wait => 2
    case TooLarge => 3
    case ByteLimit => 4
  }

  datatype Reception = Sleep | Empty | Ended | Got(m: Message)

  function Receive(c: Core, block: bool): Reception {
    if c.queue != [] then Got(c.queue[0])
    else if c.closed then Ended
    else if block then Sleep
    else Empty
  }

  // ---- the sequential model of the property test ----

  datatype Model = Model(capacity: nat, maxMessage: nat, maxQueued: nat, queue: seq<Bytes>, closed: bool)

  datatype SendResult = Sent | MessageTooLarge | ChannelClosed | ChannelFull | QueueByteLimit
  datatype RecvResult = Received(data: Bytes) | RecvEmpty | RecvClosed

  function Queued(q: seq<Bytes>): nat {
    if q == [] then 0 else |q[0]| + Queued(q[1..])
  }

  function ModelSend(m: Model, data: Bytes): (SendResult, Model) {
    if |data| > m.maxMessage then (MessageTooLarge, m)
    else if m.closed then (ChannelClosed, m)
    else if |m.queue| >= m.capacity then (ChannelFull, m)
    else if Queued(m.queue) + |data| > m.maxQueued then (QueueByteLimit, m)
    else (Sent, m.(queue := m.queue + [data]))
  }

  function ModelRecv(m: Model): (RecvResult, Model) {
    if m.queue != [] then (Received(m.queue[0]), m.(queue := m.queue[1..]))
    else if m.closed then (RecvClosed, m)
    else (RecvEmpty, m)
  }

  function Payloads(q: seq<Message>): (r: seq<Bytes>)
    ensures |r| == |q| && forall i :: 0 <= i < |q| ==> r[i] == q[i].data
  {
    if q == [] then [] else [q[0].data] + Payloads(q[1..])
  }

  lemma {:induction false} QueuedIsTotal(q: seq<Message>)
    ensures Queued(Payloads(q)) == Total(q)
  {
    if q != [] {
      QueuedIsTotal(q[1..]);
    }
  }

  function ModelOf(c: Core): Model {
    Model(c.capacity, c.maxMessage, c.maxQueued, Payloads(c.queue), c.closed || !c.receiverAlive)
  }

  /** The native result code that stands for each result. */
  function NativeCode(r: SendResult): nat {
    match r
    case Sent => 0
    case ChannelFull => 1
    case ChannelClosed => 2
    case MessageTooLarge => 3
    case QueueByteLimit => 4
  }

  predicate NoRoom(r: SendResult) { r == ChannelFull || r == QueueByteLimit }

  /**
    A pass of submit comes out as the model says. Where the model finds no room, and only there, a
    blocking one sleeps instead.
   */
  lemma SendMatchesModel(c: Core, data: Bytes, block: bool)
    requires |c.queue| <= c.capacity && c.queuedBytes == Total(c.queue)
    ensures var v, r := Judge(c, |data|, block), ModelSend(ModelOf(c), data).0;
      && (v == Wait <==> block && NoRoom(r))
      && (v != Wait ==> Code(v) == NativeCode(r))
      && (v == Fits <==> r == Sent)
  {
    QueuedIsTotal(c.queue);
  }

  function DecodeRecv(r: Reception): RecvResult {
    match r
    case Got(m) => Received(m.data)
    case Ended => RecvClosed
    case _ => RecvEmpty
  }

  /** So does a pass of receive; a blocking one sleeps where the model finds the queue empty, and only there. */
  lemma RecvMatchesModel(c: Core, block: bool)
    requires c.closed || c.receiverAlive
    ensures var v, r := Receive(c, block), ModelRecv(ModelOf(c)).0;
      && (v == Sleep <==> block && r == RecvEmpty)
      && (v != Sleep ==> DecodeRecv(v) == r)
  {
  }

  // ---- decoding in the wrapper ----

  /** `OwnedBytesSender::try_send` */
  function DecodeTrySend(code: int): SendResult {
    if code == 0 then Sent
    else if code == 1 then ChannelFull
    else if code == 2 then ChannelClosed
    else if code == 3 then MessageTooLarge
    else QueueByteLimit
  }

  /** `OwnedBytesSender::send_checked` */
  function DecodeSend(code: int): SendResult {
    if code == 0 then Sent
    else if code == 3 then MessageTooLarge
    else ChannelClosed
  }

  datatype LimitError = InvalidCapacity | InvalidMessageSizeLimit | InvalidQueuedByteLimit | InvalidOwnedBytesLimits

  /** The validation of `owned_bytes_bounded_with_limits`; `None` when the limits are good. */
  function CheckLimits(capacity: int, maxMessage: int, maxQueued: int): Option<LimitError> {
    if capacity <= 0 then Some(InvalidCapacity)
    else if maxMessage <= 0 then Some(InvalidMessageSizeLimit)
    else if maxQueued <= 0 then Some(InvalidQueuedByteLimit)
    else if maxMessage > maxQueued then Some(InvalidOwnedBytesLimits)
    else None
  }

  // ---- the core in place ----

  class BytesCore {
    const ring: Ring<Message>
    const maxMessageBytes: nat
    const maxQueuedBytes: nat
    var queuedBytes: int
    var senders: int
    var receiverAlive: bool
    var closed: bool

    /** The byte counter is the bytes in the ring and fits an int32. */
    ghost predicate Valid()
      reads this, ring, ring.slots
    {
      && ring.Valid()
      && queuedBytes == Total(ring.Contents()) <= maxQueuedBytes <= INT32_MAX
    }

    ghost function View(): Core
      requires Valid()
      reads this, ring, ring.slots
    {
      Core(ring.slots.Length, maxMessageBytes, maxQueuedBytes,
           ring.Contents(), queuedBytes, senders, receiverAlive, closed)
    }

    constructor (capacity: nat, maxMessage: nat, maxQueued: nat)
      requires capacity > 0 && maxQueued <= INT32_MAX
      ensures Valid() && fresh(ring) && fresh(ring.slots)
      ensures View() == Core(capacity, maxMessage, maxQueued, [], 0, 1, false, false)
    {
      ring := new Ring(capacity);
      maxMessageBytes, maxQueuedBytes := maxMessage, maxQueued;
      queuedBytes, senders, receiverAlive, closed := 0, 1, false, false;
    }

    /** The tests of one pass of submit, from a lock or a wake-up. */
    method Test(data: Bytes, block: bool) returns (v: Verdict)
      requires Valid()
      ensures v == Judge(View(), |data|, block)
      ensures v == Wait <==> block && NoRoom(ModelSend(ModelOf(View()), data).0)
      ensures v != Wait ==> DecodeTrySend(Code(v)) == ModelSend(ModelOf(View()), data).0
    {
      SendMatchesModel(View(), data, block);
      var length := |data|;
      if length > maxMessageBytes {
        return TooLarge;
      }
      if block && !closed && receiverAlive
         && (ring.count == ring.slots.Length || !(length <= maxQueuedBytes - queuedBytes)) {
        return Wait;
      }
      if closed || !receiverAlive {
        return Closed;
      }
      if ring.count == ring.slots.Length {
        return Full;
      }
      if !(length <= maxQueuedBytes - queuedBytes) {
        return ByteLimit;
      }
      v := Fits;
    }

    /** The end of a pass that brings its copy along. */
    method Push(m: Message)
      requires Valid() && Judge(View(), |m.data|, false) == Fits
      modifies this, ring, ring.slots
      ensures Valid() && View() == old(View()).Pushed(m)
    {
      TotalPush(ring.Contents(), m);
      ring.Put(m);
      queuedBytes := queuedBytes + |m.data|;
    }

    /** The non-blocking submit with its retry loop, when no other thread gets in between. */
    method TrySend(data: Bytes, copy: nat, sender: nat, number: nat) returns (code: nat, passes: nat, copies: nat)
      requires Valid()
      modifies this, ring, ring.slots
      ensures Valid()
      ensures (DecodeTrySend(code), ModelOf(View())) == ModelSend(old(ModelOf(View())), data)
      ensures passes <= 2 && copies <= 1
      ensures code == 3 ==> copies == 0
      ensures code == 0 ==> View() == old(View()).Pushed(Message(data, copy, sender, number)) && copies == 1
      ensures code != 0 ==> View() == old(View())
    {
      QueuedIsTotal(ring.Contents());
      var message: Option<Message> := None;
      passes, copies := 0, 0;
      while true
        invariant Valid() && View() == old(View())
        invariant passes == copies == (if message.Some? then 1 else 0)
        invariant message.Some? ==>
                    message.value == Message(data, copy, sender, number) && Judge(View(), |data|, false) == Fits
        decreases message.None?
      {
        passes := passes + 1;
        var v := Test(data, false);
        if v != Fits {
          return Code(v), passes, copies;
        }
        if message.Some? {
          ghost var q := ring.Contents();
          Push(message.value);
          assert Payloads(q + [message.value]) == Payloads(q) + [data];
          return 0, passes, copies;
        }
        message := Some(Message(data, copy, sender, number));
        copies := copies + 1;
      }
    }

    /** One pass of receive, from a lock or a wake-up. */
    method Pop(block: bool) returns (r: Reception)
      requires Valid()
      modifies this, ring, ring.slots
      ensures Valid() && r == Receive(old(View()), block)
      ensures View() == if r.Got? then old(View()).Popped() else old(View())
      ensures old(View()).closed || old(View()).receiverAlive ==>
                && (r == Sleep <==> block && ModelRecv(old(ModelOf(View()))).0 == RecvEmpty)
                && (r != Sleep ==> (DecodeRecv(r), ModelOf(View())) == ModelRecv(old(ModelOf(View()))))
    {
      if ring.count == 0 && block && !closed {
        return Sleep;
      }
      if ring.count == 0 {
        return if closed then Ended else Empty;
      }
      ghost var q := ring.Contents();
      var m := ring.Take();
      assert q == [m] + ring.Contents();
      queuedBytes := queuedBytes - |m.data|;
      assert Payloads(q)[1..] == Payloads(q[1..]);
      r := Got(m);
    }

    method CloseSender()
      requires Valid()
      modifies this
      ensures Valid() && View() == old(View()).(closed := true)
    {
      closed := true;
    }

    method CloseReceiver()
      requires Valid()
      modifies this
      ensures Valid() && View() == old(View()).(closed := true, receiverAlive := false)
    {
      closed := true;
      receiverAlive := false;
    }

    method DropSender()
      requires Valid()
      modifies this
      ensures Valid() && View() == old(View()).SenderGone()
    {
      senders := senders - 1;
      if senders == 0 {
        closed := true;
      }
    }

    method DropReceiver()
      requires Valid()
      modifies this
      ensures Valid() && View() == old(View()).ReceiverGone()
    {
      if receiverAlive {
        receiverAlive := false;
        closed := true;
      }
    }
  }
}
