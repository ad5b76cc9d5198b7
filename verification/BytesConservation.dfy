/**
  When the writable side of the owned-bytes channel conserves work.

  A receive signals one sleeping sender. With two budgets that sender's message may still not fit
  while another one, which would fit, sleeps on. This happens for some run exactly when a queue
  with room for one more message can lack the bytes for the largest one.
 */
module BytesConservation {
  import opened Threads
  import opened BytesCores
  import opened Endpoints
  import opened BytesChannels
  import opened BytesInvariants
  import opened BytesProofs
  import opened BytesTheorems

  /** A sender that sleeps although its message fits: somebody awake is going to look at the queue. */
  ghost predicate Conserving(s: State) {
    (exists t :: t in s.calls && SendSleeps(s.calls[t]) && Judge(s.core, |s.calls[t].data|, true) == Fits) ==>
      exists t :: t in s.calls && InFlight(s.calls[t])
  }

  ghost predicate AlwaysConserves(capacity: nat, maxMessage: nat, maxQueued: nat) {
    forall s :: ReachableWith(s, capacity, maxMessage, maxQueued) && !s.faulted ==> Conserving(s)
  }

  /** The byte budget covers a ring full of the largest messages. */
  predicate Ample(capacity: nat, maxMessage: nat, maxQueued: nat) { capacity * maxMessage <= maxQueued }

  lemma ConservingIffAmple(capacity: nat, maxMessage: nat, maxQueued: nat)
    requires capacity > 0
    ensures AlwaysConserves(capacity, maxMessage, maxQueued) <==> Ample(capacity, maxMessage, maxQueued)
  {
    if Ample(capacity, maxMessage, maxQueued) {
      forall s | ReachableWith(s, capacity, maxMessage, maxQueued) && !s.faulted ensures Conserving(s) {
        WritersConserved(s, capacity, maxMessage, maxQueued);
        CountPositive(s.calls, InFlight);
      }
    } else {
      var s := WastedSlot(capacity, maxMessage, maxQueued);
      assert !Conserving(s);
    }
  }

  // ---- ample limits ----

  /** As for the pool: sleepers mean that as many senders are on their way as there are free slots. */
  ghost predicate Served(s: State) {
    Count(s.calls, SendSleeps) > 0 ==> Count(s.calls, InFlight) >= s.core.capacity - |s.core.queue|
  }

  ghost predicate Roomy(s: State) { Inv(s) && Ample(s.core.capacity, s.core.maxMessage, s.core.maxQueued) }

  lemma {:induction false} TotalBounded(q: seq<Message>, limit: nat)
    requires forall i :: 0 <= i < |q| ==> |q[i].data| <= limit
    ensures Total(q) <= |q| * limit
  {
    if q != [] {
      TotalBounded(q[1..], limit);
    }
  }

  lemma AmpleLeaves(capacity: nat, maxMessage: nat, maxQueued: nat, n: nat)
    requires Ample(capacity, maxMessage, maxQueued) && n < capacity
    ensures n * maxMessage + maxMessage <= maxQueued
  {
    assert capacity * maxMessage == (n + 1) * maxMessage + (capacity - n - 1) * maxMessage;
  }

  /** Only messages within the limit are ever queued. */
  lemma QueuedWithinLimit(s: State, i: nat)
    requires Inv(s) && i < |s.core.queue|
    ensures |s.core.queue[i].data| <= s.core.maxMessage
  {
    var k := |s.book.received| + |s.book.dropped| + i;
    assert s.book.accepted[k] == s.core.queue[i];
    var m := s.book.accepted[k];
    assert OutcomeOk(LogOf(s.log, m.sender)[m.number], s.core.maxMessage);
  }

  /** With ample limits a free slot is all a message needs. */
  lemma SlotSuffices(s: State, length: nat)
    requires Roomy(s) && |s.core.queue| < s.core.capacity && length <= s.core.maxMessage
    ensures s.core.HasByteCapacity(length)
  {
    forall i | 0 <= i < |s.core.queue| ensures |s.core.queue[i].data| <= s.core.maxMessage {
      QueuedWithinLimit(s, i);
    }
    TotalBounded(s.core.queue, s.core.maxMessage);
    AmpleLeaves(s.core.capacity, s.core.maxMessage, s.core.maxQueued, |s.core.queue|);
  }

  lemma SetSendServes(s: State, t: nat, v: Call)
    requires Served(s) && v.Send? && (t in s.calls ==> InFlight(s.calls[t]))
    requires SendSleeps(v) ==> |s.core.queue| == s.core.capacity
    ensures Served(s.(calls := s.calls[t := v]))
  {
    CallMoves(s.calls, t, v);
  }

  /** A send may go if the channel is closed, the queue is full, or it had not begun. */
  lemma EndSendServes(s: State, t: nat)
    requires Served(s) && SleepersOpen(s)
    requires !s.core.IsOpen() || |s.core.queue| == s.core.capacity || t !in s.calls
    ensures Served(s.(calls := s.calls - {t}))
  {
    CallEnds(s.calls, t);
  }

  lemma FirstPassServes(s: State, t: nat, call: Call)
    requires Roomy(s) && Served(s) && !s.faulted && Fresh(s, t, call)
    requires t in s.calls ==> call.block && |call.data| <= s.core.maxMessage
    ensures Served(FirstPass(s, t, call))
  {
    if |call.data| <= s.core.maxMessage && |s.core.queue| < s.core.capacity {
      SlotSuffices(s, |call.data|);
    }
    match Judge(s.core, |call.data|, call.block) {
      case Fits => SetSendServes(s, t, call.(pc := SendCopying));
      case Wait => SetSendServes(s, t, call.(pc := SendAsleep(None)));
      case _ => EndSendServes(s, t);
    }
  }

  lemma EnteredServes(s: State, t: nat, call: Call, id: nat, wake: Option<nat>)
    requires Served(s) && call.Send? && RecvSignal(s, wake) && t in s.calls && InFlight(s.calls[t])
    ensures Served(Entered(s, t, call, id, wake))
  {
    if wake.Some? {
      CallMoves(s.calls, wake.value, WakeRecv(s.calls[wake.value]));
    }
    CallEnds(SignalRecv(s.calls, wake), t);
  }

  lemma SecondPassServes(s: State, t: nat, call: Call, id: nat, wake: Option<nat>)
    requires Roomy(s) && Served(s) && !s.faulted && Carrying(s, t, call, id) && RecvSignal(s, wake)
    ensures Served(SecondPass(s, t, call, id, wake))
  {
    NotTooLarge(s, t, call, id);
    if |s.core.queue| < s.core.capacity {
      SlotSuffices(s, |call.data|);
    }
    match Judge(s.core, |call.data|, call.block) {
      case Fits => EnteredServes(s, t, call, id, wake);
      case Wait => SetSendServes(s, t, call.(pc := SendAsleep(Some(id))));
      case _ => EndSendServes(s, t);
    }
  }

  lemma SendRecheckServes(s: State, t: nat, wake: Option<nat>)
    requires Roomy(s) && Served(s) && !s.faulted && SendEnabled(s, t, SendRecheck(wake))
    ensures Served(SendApply(s, t, SendRecheck(wake)))
  {
    CallHandle(s.calls, s.handles, t);
    if s.calls[t].pc.held.None? {
      FirstPassServes(s, t, s.calls[t]);
    } else {
      SecondPassServes(s, t, s.calls[t], s.calls[t].pc.held.value, wake);
    }
  }

  lemma SendStartServes(s: State, t: nat, h: nat, data: Bytes, block: bool)
    requires Roomy(s) && Served(s) && !s.faulted && SendEnabled(s, t, SendStart(h, data, block))
    ensures Served(SendApply(s, t, SendStart(h, data, block)))
  {
    FirstPassServes(s, t, Send(h, |LogOf(s.log, t)|, data, block, 1, 0, SendCopying));
  }

  lemma SendLockServes(s: State, t: nat, wake: Option<nat>)
    requires Roomy(s) && Served(s) && !s.faulted && SendEnabled(s, t, SendLock(wake))
    ensures Served(SendApply(s, t, SendLock(wake)))
  {
    SecondPassServes(s, t, s.calls[t].(passes := s.calls[t].passes + 1), s.calls[t].pc.copy, wake);
  }

  lemma SendServes(s: State, t: nat, e: SendStep)
    requires Roomy(s) && Served(s) && !s.faulted && SendEnabled(s, t, e) && !e.SendError?
    ensures Served(SendApply(s, t, e))
  {
    match e {
      case SendStart(h, data, block) => SendStartServes(s, t, h, data, block);
      case SendFails(_, _, _) => EndSendServes(s, t);
      case SendRecheck(wake) => SendRecheckServes(s, t, wake);
      case SendCopy(id) =>
        SetSendServes(s, t, s.calls[t].(copies := s.calls[t].copies + 1, pc := SendRelock(id)));
      case SendLock(wake) => SendLockServes(s, t, wake);
      case SendSpurious => CallMoves(s.calls, t, WakeSend(s.calls[t]));
    }
  }

  lemma PoppedServes(s: State, t: nat, h: nat, wake: Option<nat>)
    requires Served(s) && Looking(s, t, h) && s.core.queue != [] && SendSignal(s, wake)
    requires !Popped(s, t, h, wake).faulted
    ensures Served(Popped(s, t, h, wake))
  {
    if wake.Some? {
      CallMoves(s.calls, wake.value, WakeSend(s.calls[wake.value]));
    }
    CallMoves(SignalSend(s.calls, wake), t, Recv(h, RecvOut(s.core.queue[0])));
  }

  lemma RecvPassServes(s: State, t: nat, h: nat, block: bool, wake: Option<nat>)
    requires Served(s) && Looking(s, t, h) && SendSignal(s, wake)
    requires !RecvPass(s, t, h, block, wake).faulted
    ensures Served(RecvPass(s, t, h, block, wake))
  {
    match Receive(s.core, block) {
      case Got(_) => PoppedServes(s, t, h, wake);
      case Sleep => CallMoves(s.calls, t, Recv(h, RecvAsleep));
      case _ => CallEnds(s.calls, t);
    }
  }

  lemma RecvWakeServes(s: State, t: nat)
    requires Served(s) && t in s.calls && s.calls[t].Recv?
    ensures Served(s.(calls := s.calls[t := WakeRecv(s.calls[t])]))
  {
    CallMoves(s.calls, t, WakeRecv(s.calls[t]));
  }

  lemma RecvRecheckServes(s: State, t: nat, wake: Option<nat>)
    requires Inv(s) && Served(s) && RecvEnabled(s, t, RecvRecheck(wake)) && !RecvApply(s, t, RecvRecheck(wake)).faulted
    ensures Served(RecvApply(s, t, RecvRecheck(wake)))
  {
    CallHandle(s.calls, s.handles, t);
    RecvPassServes(s, t, s.calls[t].handle, true, wake);
  }

  lemma RecvServes(s: State, t: nat, e: RecvStep)
    requires Inv(s) && Served(s) && RecvEnabled(s, t, e) && !RecvApply(s, t, e).faulted
    ensures Served(RecvApply(s, t, e))
  {
    match e {
      case RecvStart(h, block, wake) => RecvPassServes(s, t, h, block, wake);
      case RecvRecheck(wake) => RecvRecheckServes(s, t, wake);
      case RecvSpurious => RecvWakeServes(s, t);
      case RecvFinish => CallEnds(s.calls, t);
    }
  }

  lemma HandleServes(s: State, h: nat, e: HandleStep)
    requires Inv(s) && Served(s) && HandleEnabled(s, h, e) && !HandleApply(s, h, e).faulted
    ensures Served(HandleApply(s, h, e))
  {
    HandleKeeps(s, h, e);
    var u := HandleApply(s, h, e);
    assert !u.core.IsOpen() ==> Count(u.calls, SendSleeps) == 0;
    if e.DropRelease? && u.refs == 0 {
      NobodyLeft(u);
    }
  }

  lemma StepServes(s: State, e: Event)
    requires Roomy(s) && Served(s) && !s.faulted && Enabled(s, e) && !Apply(s, e).faulted
    ensures Served(Apply(s, e))
  {
    match e {
      case BySend(t, step) => SendServes(s, t, step);
      case ByRecv(t, step) => RecvServes(s, t, step);
      case ByHandle(h, step) => HandleServes(s, h, step);
    }
  }

  lemma {:induction false} RunServes(s: State, es: seq<Event>)
    requires Roomy(s) && Possible(s, es) && (!s.faulted ==> Served(s))
    ensures !After(s, es).faulted ==> Served(After(s, es))
    decreases |es|
  {
    if es != [] {
      StepKeeps(s, es[0]);
      StepGoesOnward(s, es[0]);
      if !Apply(s, es[0]).faulted {
        StepServes(s, es[0]);
      }
      RunServes(Apply(s, es[0]), es[1..]);
    }
  }

  /** With ample limits sleeping senders mean that as many others are on their way as slots are free. */
  lemma WritersConserved(s: State, capacity: nat, maxMessage: nat, maxQueued: nat)
    requires ReachableWith(s, capacity, maxMessage, maxQueued) && !s.faulted
    requires capacity > 0 && Ample(capacity, maxMessage, maxQueued)
    ensures |s.core.queue| <= s.core.capacity == capacity
    ensures (exists t :: t in s.calls && SendSleeps(s.calls[t])) ==>
              Count(s.calls, InFlight) >= capacity - |s.core.queue|
  {
    var c0 := Create(capacity, maxMessage, maxQueued);
    var es: seq<Event> :| Possible(c0, es) && s == After(c0, es);
    CreateHolds(capacity, maxMessage, maxQueued);
    assert At(c0.calls, SendSleeps) == {};
    RunServes(c0, es);
    RunKeeps(c0, es);
    RunGoesOnward(c0, es);
    CountPositive(s.calls, SendSleeps);
  }

  // ---- all other limits ----

  /** A run so far, without faults. */
  ghost predicate Going(s: State) {
    && ReachableWith(s, s.core.capacity, s.core.maxMessage, s.core.maxQueued) && !s.faulted
    && OpenHandle(s, 0, Sender) && OpenHandle(s, 1, Receiver) && s.core.IsOpen()
  }

  lemma Try(s: State, e: Event) returns (u: State)
    requires Going(s) && Enabled(s, e) && !e.ByHandle? && !Apply(s, e).faulted
    ensures Going(u) && u == Apply(s, e)
  {
    Go(s, e, s.core.capacity, s.core.maxMessage, s.core.maxQueued);
    StepGoesOnward(s, e);
    if e.BySend? {
      SendSteady(s, e.t, e.send);
    } else {
      RecvSteady(s, e.t, e.recv);
    }
    u := Apply(s, e);
  }

  /** Thread 2 has looked at the queue and made its copy. */
  lemma Copied(s: State, data: Bytes, id: nat) returns (u: State, call: Call)
    requires Going(s) && s.calls == map[] && id !in s.book.owner
    requires Judge(s.core, |data|, false) == Fits
    ensures call == Send(0, |LogOf(s.log, 2)|, data, false, 1, 1, SendRelock(id))
    ensures Going(u) && u.calls == map[2 := call]
    ensures u.core == s.core && u.log == s.log && u.book.owner.Keys == s.book.owner.Keys + {id}
  {
    u := Try(s, BySend(2, SendStart(0, data, false)));
    u := Try(u, BySend(2, SendCopy(id)));
    call := u.calls[2];
  }

  /** A non-blocking send by thread 2, from start to end, with nobody else in a call. */
  lemma Enqueue(s: State, data: Bytes, id: nat) returns (u: State)
    requires Going(s) && s.calls == map[] && id !in s.book.owner
    requires Judge(s.core, |data|, false) == Fits
    ensures Going(u) && u.calls == map[] && u.book.owner.Keys == s.book.owner.Keys + {id}
    ensures u.log.Keys == s.log.Keys + {2}
    ensures exists m: Message :: m.data == data && u.core == s.core.Pushed(m)
  {
    var call;
    u, call := Copied(s, data, id);
    assert At(u.calls, RecvSleeps) == {};
    assert SendApply(u, 2, SendLock(None)) == Entered(u, 2, call.(passes := 2), id, None);
    u := Try(u, BySend(2, SendLock(None)));
    assert u.core == s.core.Pushed(Message(data, id, 2, call.number));
  }

  function Min(a: nat, b: nat): nat { if a <= b then a else b }

  lemma NextTotal(n: nat, maxMessage: nat, maxQueued: nat)
    requires n > 0
    ensures var bytes := Min((n - 1) * maxMessage, maxQueued);
            bytes + Min(maxMessage, maxQueued - bytes) == Min(n * maxMessage, maxQueued)
  {
    assert n * maxMessage == (n - 1) * maxMessage + maxMessage;
  }

  lemma Opened(capacity: nat, maxMessage: nat, maxQueued: nat) returns (s: State)
    ensures Going(s) && s.calls == map[] && s.log == map[] && s.book.owner == map[]
    ensures s.core == Core(capacity, maxMessage, maxQueued, [], 0, 1, true, false)
  {
    Begin(capacity, maxMessage, maxQueued);
    var c0, e := Create(capacity, maxMessage, maxQueued), ByHandle(0, MakeReceiver(1));
    Go(c0, e, capacity, maxMessage, maxQueued);
    s := Apply(c0, e);
  }

  /** An empty message followed by `n` messages as large as the limits allow. */
  lemma {:induction false} Filled(capacity: nat, maxMessage: nat, maxQueued: nat, n: nat) returns (s: State)
    requires n < capacity
    ensures Going(s) && s.calls == map[] && s.log.Keys == {2} && (forall id :: id in s.book.owner ==> id <= n)
    ensures s.core.capacity == capacity && s.core.maxMessage == maxMessage && s.core.maxQueued == maxQueued
    ensures |s.core.queue| == n + 1 && s.core.queue[0].data == []
    ensures s.core.queuedBytes == Min(n * maxMessage, maxQueued)
  {
    if n == 0 {
      s := Opened(capacity, maxMessage, maxQueued);
      s := Enqueue(s, [], 0);
    } else {
      s := Filled(capacity, maxMessage, maxQueued, n - 1);
      NextTotal(n, maxMessage, maxQueued);
      s := Enqueue(s, seq(Min(maxMessage, maxQueued - s.core.queuedBytes), _ => 0), n);
    }
  }

  function Waiter(length: nat): Call { Send(0, 0, seq(length, _ => 0), true, 1, 0, SendAsleep(None)) }

  /** A blocking send that finds no room sleeps. */
  lemma GoToSleep(s: State, t: nat, length: nat) returns (u: State)
    requires Going(s) && t !in s.calls && t !in s.log && Judge(s.core, length, true) == Wait
    ensures Going(u) && u == s.(calls := s.calls[t := Waiter(length)])
  {
    u := Try(s, BySend(t, SendStart(0, seq(length, _ => 0), true)));
  }

  /** The receive takes the oldest message and wakes sender 3, which finds no room and sleeps on. */
  lemma VainWakeup(s: State, length: nat) returns (u: State)
    requires Going(s) && 5 !in s.calls && 3 in s.calls && s.calls[3] == Waiter(length) && s.core.queue != []
    requires Judge(s.core.Popped(), length, true) == Wait
    ensures Going(u) && u.calls == s.calls && u.core == s.core.Popped()
  {
    u := Try(s, ByRecv(5, RecvStart(1, true, Some(3))));
    u := Try(u, ByRecv(5, RecvFinish));
    assert u.calls == s.calls[3 := WakeSend(s.calls[3])];
    u := Try(u, BySend(3, SendRecheck(None)));
    assert u.calls == s.calls;
  }

  lemma NobodyAwake(s: State, length: nat)
    requires s.calls == map[3 := Waiter(length), 4 := Waiter(0)] && Judge(s.core, 0, true) == Fits
    ensures !Conserving(s)
  {
    assert SendSleeps(s.calls[4]) && Judge(s.core, |s.calls[4].data|, true) == Fits;
  }

  /** The ring is full; the largest message and the empty one wait for a slot. */
  lemma TwoSleepers(capacity: nat, maxMessage: nat, maxQueued: nat) returns (s: State)
    requires capacity > 0
    ensures Going(s) && s.calls == map[3 := Waiter(maxMessage), 4 := Waiter(0)]
    ensures s.core.capacity == capacity && s.core.maxMessage == maxMessage && s.core.maxQueued == maxQueued
    ensures |s.core.queue| == capacity && s.core.queue[0].data == []
    ensures s.core.queuedBytes == Min((capacity - 1) * maxMessage, maxQueued)
  {
    s := Filled(capacity, maxMessage, maxQueued, capacity - 1);
    s := GoToSleep(s, 3, maxMessage);
    s := GoToSleep(s, 4, 0);
  }

  lemma NoBytesLeft(capacity: nat, maxMessage: nat, maxQueued: nat)
    requires capacity > 0 && !Ample(capacity, maxMessage, maxQueued)
    ensures 0 < maxMessage && maxQueued - Min((capacity - 1) * maxMessage, maxQueued) < maxMessage
  {
    assert capacity * maxMessage == (capacity - 1) * maxMessage + maxMessage;
  }

  /**
    The receive that takes the empty message wakes the largest one, which sleeps on for lack of
    bytes: everybody is asleep, although the other message fits into the free slot.
   */
  lemma WastedSlot(capacity: nat, maxMessage: nat, maxQueued: nat) returns (s: State)
    requires capacity > 0 && !Ample(capacity, maxMessage, maxQueued)
    ensures ReachableWith(s, capacity, maxMessage, maxQueued) && !s.faulted && !Conserving(s)
  {
    s := TwoSleepers(capacity, maxMessage, maxQueued);
    NoBytesLeft(capacity, maxMessage, maxQueued);
    s := VainWakeup(s, maxMessage);
    NobodyAwake(s, maxMessage);
  }
}
