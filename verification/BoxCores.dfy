/**
  The lock-protected part of the generic channel, whose messages are boxes handed over by reference:
  its decisions as functions, and the class that works in place on the ring.
 */
module BoxCores {
  import opened Threads
  import opened Rings

  /** A payload box is identified by its reference. */
  type Box = nat

  datatype Core = Core(capacity: nat, queue: seq<Box>, senders: int, receiverAlive: bool, closed: bool)
  {
    predicate IsOpen() { !closed && receiverAlive }
    function SenderGone(): Core { this.(senders := senders - 1, closed := closed || senders == 1) }
    function ReceiverGone(): Core { this.(receiverAlive := false, closed := closed || receiverAlive) }
  }

  datatype Verdict = Enter | Full | Closed | Wait

  function Judge(c: Core, block: bool): Verdict {
    if !c.IsOpen() then Closed
    else if |c.queue| < c.capacity then Enter
    else if block then Wait
    else Full
  }

  /** What a send that returns hands back; `None` is NULL. */
  function HandedBack(v: Verdict, box: Box): Option<Box> { if v == Enter then None else Some(box) }

  /** What it leaves in the result cell. */
  function Code(v: Verdict): nat {
    match v
    case Enter => 0
    case Full => 1
    case Closed | Wait => 2
  }

  datatype Reception = Sleep | Empty | Ended | Got(box: Box)

  function Receive(c: Core, block: bool): Reception {
    if c.queue != [] then Got(c.queue[0])
    else if c.closed then Ended
    else if block then Sleep
    else Empty
  }

  // ---- the channel as a bounded queue that one thread at a time uses ----

  datatype Model = Model(capacity: nat, queue: seq<Box>, closed: bool)

  datatype SendResult = Sent | ChannelFull | ChannelClosed
  datatype RecvResult = Received(box: Box) | RecvEmpty | RecvClosed

  function ModelOf(c: Core): Model { Model(c.capacity, c.queue, c.closed || !c.receiverAlive) }

  /** What `try_send` promises. */
  function ModelSend(m: Model, box: Box): (SendResult, Model) {
    if m.closed then (ChannelClosed, m)
    else if |m.queue| < m.capacity then (Sent, m.(queue := m.queue + [box]))
    else (ChannelFull, m)
  }

  /** What `try_recv` promises. */
  function ModelRecv(m: Model): (RecvResult, Model) {
    if m.queue != [] then (Received(m.queue[0]), m.(queue := m.queue[1..]))
    else if m.closed then (RecvClosed, m)
    else (RecvEmpty, m)
  }

  /** The native result code that stands for each result. */
  function NativeCode(r: SendResult): nat {
    match r
    case Sent => 0
    case ChannelFull => 1
    case ChannelClosed => 2
  }

  function DecodeRecv(r: Reception): RecvResult {
    match r
    case Got(box) => Received(box)
    case Ended => RecvClosed
    case _ => RecvEmpty
  }

  /** A send comes out as the model says; a blocking one sleeps where the model finds the queue full, and only there. */
  lemma SendMatchesModel(c: Core, box: Box, block: bool)
    requires |c.queue| <= c.capacity
    ensures var v, r := Judge(c, block), ModelSend(ModelOf(c), box).0;
      && (v == Wait <==> block && r == ChannelFull)
      && (v != Wait ==> Code(v) == NativeCode(r) && HandedBack(v, box) == if r == Sent then None else Some(box))
      && (v == Enter <==> r == Sent)
  {
  }

  /** So does a receive; a blocking one sleeps where the model finds the queue empty, and only there. */
  lemma RecvMatchesModel(c: Core, block: bool)
    requires c.closed || c.receiverAlive
    ensures var v, r := Receive(c, block), ModelRecv(ModelOf(c)).0;
      && (v == Sleep <==> block && r == RecvEmpty)
      && (v != Sleep ==> DecodeRecv(v) == r)
  {
  }

  class BoxCore {
    const ring: Ring<Box>
    var senders: int
    var receiverAlive: bool
    var closed: bool

    ghost predicate Valid()
      reads this, ring, ring.slots
    {
      ring.Valid()
    }

    ghost function View(): Core
      requires Valid()
      reads this, ring, ring.slots
    {
      Core(ring.slots.Length, ring.Contents(), senders, receiverAlive, closed)
    }

    constructor (capacity: nat)
      requires capacity > 0
      ensures Valid() && fresh(ring) && fresh(ring.slots)
      ensures View() == Core(capacity, [], 1, false, false)
    {
      ring := new Ring(capacity);
      senders, receiverAlive, closed := 1, false, false;
    }

    /** `sync_sender_try_send`: what is handed back is NULL exactly when the box entered the ring. */
    method TrySend(box: Box) returns (back: Option<Box>, result: nat)
      requires Valid()
      modifies this, ring, ring.slots
      ensures Valid()
      ensures var (r, m) := ModelSend(old(ModelOf(View())), box);
        result == NativeCode(r) && ModelOf(View()) == m && back == if r == Sent then None else Some(box)
      ensures View() == if result == 0 then old(View()).(queue := old(View()).queue + [box]) else old(View())
    {
      SendMatchesModel(View(), box, false);
      if closed || !receiverAlive {
        return Some(box), 2;
      }
      if ring.count == ring.slots.Length {
        return Some(box), 1;
      }
      ring.Put(box);
      return None, 0;
    }

    /** One pass of `sync_sender_send` from a lock or a wake-up to an unlock or a wait. */
    method SendPass(box: Box) returns (v: Verdict, back: Option<Box>, result: nat)
      requires Valid()
      modifies this, ring, ring.slots
      ensures Valid()
      ensures v == Judge(old(View()), true) && v != Full
      ensures var (r, m) := ModelSend(old(ModelOf(View())), box);
        && (v == Wait <==> r == ChannelFull) && ModelOf(View()) == m
        && (v != Wait ==> result == NativeCode(r) && back == if r == Sent then None else Some(box))
      ensures View() == if v == Enter then old(View()).(queue := old(View()).queue + [box]) else old(View())
    {
      if ring.count == ring.slots.Length && !closed && receiverAlive {
        return Wait, None, 0;
      }
      if closed || !receiverAlive {
        return Closed, Some(box), 2;
      }
      ring.Put(box);
      return Enter, None, 0;
    }

    /** One pass of `sync_channel_receive`. */
    method Pop(block: bool) returns (r: Reception)
      requires Valid()
      modifies this, ring, ring.slots
      ensures Valid() && r == Receive(old(View()), block)
      ensures old(View()).closed || old(View()).receiverAlive ==>
                && (r == Sleep <==> block && ModelRecv(old(ModelOf(View()))).0 == RecvEmpty)
                && (r != Sleep ==> (DecodeRecv(r), ModelOf(View())) == ModelRecv(old(ModelOf(View()))))
      ensures View() == if r.Got? then old(View()).(queue := old(View()).queue[1..]) else old(View())
    {
      if block && ring.count == 0 && !closed {
        return Sleep;
      }
      if ring.count == 0 {
        return if closed then Ended else Empty;
      }
      var box := ring.Take();
      r := Got(box);
    }
  }
}
