/** Every step of the owned-bytes channel keeps the invariant, so every state of every run has it. */
module BytesProofs {
  import opened Threads
  import opened BytesCores
  import opened Endpoints
  import opened BytesChannels
  import opened BytesInvariants
  import opened BytesBooks

  // ---- sends ----

  /** A send that is awake, without a copy, about to look at the queue. */
  ghost predicate Fresh(s: State, t: nat, call: Call) {
    && call.Send? && OpenHandle(s, call.handle, Sender) && Held(call).None?
    && call.number == |LogOf(s.log, t)| && call.passes == 1 && call.copies == 0
    && (t in s.calls ==> Held(s.calls[t]).None? && InFlight(s.calls[t]))
  }

  lemma SetCallKeepsSound(s: State, t: nat, v: Call)
    requires Sound(s) && v.handle in s.handles && RightRole(v, s.handles[v.handle])
    ensures Sound(s.(calls := s.calls[t := v]))
  {
  }

  lemma EndCallKeepsSound(s: State, t: nat)
    requires Sound(s)
    ensures Sound(s.(calls := s.calls - {t}))
  {
  }

  /** A message within its limit that finds no room finds something in the queue to be received. */
  lemma FullMeansQueued(s: State, length: nat)
    requires Sizes(s.core) && s.core.maxMessage <= s.core.maxQueued && length <= s.core.maxMessage
    requires |s.core.queue| == s.core.capacity || !s.core.HasByteCapacity(length)
    ensures s.core.queue != []
  {
  }

  /** The call of `t` may end without leaving a sleeping sender alone with an empty queue. */
  ghost predicate MayEnd(s: State, t: nat) {
    !s.core.IsOpen() || t !in s.calls || (s.core.maxMessage <= s.core.maxQueued ==> s.core.queue != [])
  }

  lemma SetSendKeepsWakeups(s: State, t: nat, v: Call)
    requires Sizes(s.core) && Wakeups(s) && v.Send? && (t in s.calls ==> InFlight(s.calls[t]))
    requires SendSleeps(v) ==> Judge(s.core, |v.data|, true) == Wait
    ensures Wakeups(s.(calls := s.calls[t := v]))
  {
    CallMoves(s.calls, t, v);
    if s.core.maxMessage <= s.core.maxQueued && SendSleeps(v) {
      FullMeansQueued(s, |v.data|);
    }
  }

  lemma SetSendKeeps(s: State, t: nat, v: Call)
    requires Inv(s) && v.Send? && (t in s.calls ==> InFlight(s.calls[t]))
    requires OpenHandle(s, v.handle, Sender)
    requires Held(v) == if t in s.calls then Held(s.calls[t]) else None
    requires CallOk(v, s.core.maxMessage, |LogOf(s.log, t)|)
    requires SendSleeps(v) ==> Judge(s.core, |v.data|, true) == Wait
    ensures Inv(s.(calls := s.calls[t := v]))
  {
    SetCallKeepsSound(s, t, v);
    OwnSets(s.calls, s.book.owner, t, v);
    CallsOkSets(s.calls, s.log, s.core.maxMessage, t, v);
    if !s.faulted {
      SetSendKeepsWakeups(s, t, v);
    }
  }

  /** A send that was awake, or new, is gone: nobody else is worse off unless the queue is empty. */
  lemma EndSendKeepsWakeups(s: State, t: nat)
    requires Wakeups(s) && (t in s.calls ==> InFlight(s.calls[t]))
    requires MayEnd(s, t)
    ensures Wakeups(s.(calls := s.calls - {t}))
  {
    CallEnds(s.calls, t);
  }

  /** A send without a copy returns a code other than 0. */
  lemma ReturnKeeps(s: State, t: nat, call: Call, code: nat)
    requires Inv(s) && call.Send? && code != 0
    requires t in s.calls ==> Held(s.calls[t]).None? && InFlight(s.calls[t])
    requires OutcomeOk(Outcome(call.data, call.block, code, call.passes, call.copies), s.core.maxMessage)
    requires s.faulted || MayEnd(s, t)
    ensures Inv(Returned(s, t, call, code))
  {
    var o := Outcome(call.data, call.block, code, call.passes, call.copies);
    EndCallKeepsSound(s, t);
    OwnEnds(s.calls, s.book.owner, t);
    RefusalLogged(s.calls, s.log, s.book.accepted, s.core.maxMessage, t, o);
    if !s.faulted {
      EndSendKeepsWakeups(s, t);
    }
  }

  lemma FirstPassCopies(s: State, t: nat, call: Call)
    requires Inv(s) && Fresh(s, t, call) && Judge(s.core, |call.data|, call.block) == Fits
    ensures Inv(FirstPass(s, t, call))
  {
    SetSendKeeps(s, t, call.(pc := SendCopying));
  }

  lemma FirstPassSleeps(s: State, t: nat, call: Call)
    requires Inv(s) && Fresh(s, t, call) && Judge(s.core, |call.data|, call.block) == Wait
    ensures Inv(FirstPass(s, t, call))
  {
    SetSendKeeps(s, t, call.(pc := SendAsleep(None)));
  }

  lemma FirstPassReturns(s: State, t: nat, call: Call, v: Verdict)
    requires Inv(s) && Fresh(s, t, call) && v == Judge(s.core, |call.data|, call.block) && v != Fits && v != Wait
    requires t in s.calls ==> call.block && |call.data| <= s.core.maxMessage
    ensures Inv(FirstPass(s, t, call))
  {
    assert FirstPass(s, t, call) == Returned(s, t, call, Code(v));
    ReturnKeeps(s, t, call, Code(v));
  }

  lemma FirstPassKeeps(s: State, t: nat, call: Call)
    requires Inv(s) && Fresh(s, t, call)
    requires t in s.calls ==> call.block && |call.data| <= s.core.maxMessage
    ensures Inv(FirstPass(s, t, call))
  {
    match Judge(s.core, |call.data|, call.block) {
      case Fits => FirstPassCopies(s, t, call);
      case Wait => FirstPassSleeps(s, t, call);
      case v => FirstPassReturns(s, t, call, v);
    }
  }

  /** A send with a copy that frees it and returns a code other than 0. */
  lemma ReturnFreedKeeps(s: State, t: nat, call: Call, code: nat)
    requires Inv(s) && call.Send? && code != 0 && t in s.calls && InFlight(s.calls[t]) && Held(s.calls[t]).Some?
    requires OutcomeOk(Outcome(call.data, call.block, code, call.passes, call.copies), s.core.maxMessage)
    requires s.faulted || MayEnd(s, t)
    ensures Inv(Returned(s.(book := s.book.Frees(Held(s.calls[t]).value)), t, call, code))
  {
    var o := Outcome(call.data, call.block, code, call.passes, call.copies);
    EndCallKeepsSound(s, t);
    CopiesFreed(s.core.queue, s.calls, s.book, t);
    RefusalLogged(s.calls, s.log, s.book.accepted, s.core.maxMessage, t, o);
    if !s.faulted {
      EndSendKeepsWakeups(s, t);
    }
  }

  // The copy enters the ring.

  lemma EnteredKeepsSound(s: State, t: nat, call: Call, id: nat, wake: Option<nat>)
    requires Sound(s) && call.Send? && Judge(s.core, |call.data|, call.block) == Fits && RecvSignal(s, wake)
    requires t in s.calls && s.frees == 0
    ensures Sound(Entered(s, t, call, id, wake))
  {
    TotalPush(s.core.queue, Message(call.data, id, t, call.number));
  }

  lemma EnteredKeepsCopies(s: State, t: nat, call: Call, id: nat, wake: Option<nat>)
    requires Copies(s.core.queue, s.calls, s.book) && call.Send? && RecvSignal(s, wake)
    requires t in s.calls && s.calls[t].Send? && Held(s.calls[t]) == Some(id)
    ensures var u := Entered(s, t, call, id, wake); Copies(u.core.queue, u.calls, u.book)
  {
    var cs := SignalRecv(s.calls, wake);
    OwnSignalRecv(s.calls, s.book.owner, wake);
    CopiesEnter(s.core.queue, cs, s.book, t, Message(call.data, id, t, call.number));
  }

  lemma EnteredKeepsLog(s: State, t: nat, call: Call, id: nat, wake: Option<nat>)
    requires Logged(s.calls, s.log, s.book.accepted, s.core.maxMessage) && call.Send? && RecvSignal(s, wake)
    requires call.number == |LogOf(s.log, t)|
    requires OutcomeOk(Outcome(call.data, call.block, 0, call.passes, call.copies), s.core.maxMessage)
    ensures var u := Entered(s, t, call, id, wake); Logged(u.calls, u.log, u.book.accepted, u.core.maxMessage)
  {
    var o, m := Outcome(call.data, call.block, 0, call.passes, call.copies), Message(call.data, id, t, call.number);
    var u := Entered(s, t, call, id, wake);
    assert u.calls == SignalRecv(s.calls, wake) - {t} && u.log == s.log[t := LogOf(s.log, t) + [o]];
    CallsOkSignalRecv(s.calls, s.log, s.core.maxMessage, wake);
    AcceptanceLogged(SignalRecv(s.calls, wake), s.log, s.book.accepted, s.core.maxMessage, o, m);
  }

  lemma EnteredKeepsWakeups(s: State, t: nat, call: Call, id: nat, wake: Option<nat>)
    requires Wakeups(s) && call.Send? && RecvSignal(s, wake) && t in s.calls && InFlight(s.calls[t])
    requires !Entered(s, t, call, id, wake).faulted
    ensures Wakeups(Entered(s, t, call, id, wake))
  {
    if wake.Some? {
      CallMoves(s.calls, wake.value, WakeRecv(s.calls[wake.value]));
    }
    CallEnds(SignalRecv(s.calls, wake), t);
  }

  lemma EnteredKeeps(s: State, t: nat, call: Call, id: nat, wake: Option<nat>)
    requires Inv(s) && call.Send? && Judge(s.core, |call.data|, call.block) == Fits && RecvSignal(s, wake)
    requires t in s.calls && InFlight(s.calls[t]) && Held(s.calls[t]) == Some(id) && s.frees == 0
    requires call.number == |LogOf(s.log, t)|
    requires OutcomeOk(Outcome(call.data, call.block, 0, call.passes, call.copies), s.core.maxMessage)
    ensures Inv(Entered(s, t, call, id, wake))
  {
    EnteredKeepsSound(s, t, call, id, wake);
    EnteredKeepsCopies(s, t, call, id, wake);
    EnteredKeepsLog(s, t, call, id, wake);
    if !Entered(s, t, call, id, wake).faulted {
      EnteredKeepsWakeups(s, t, call, id, wake);
    }
  }

  /** A state in which a call is under way has not been freed. */
  lemma CallMeansAlive(s: State, t: nat)
    requires Sound(s) && t in s.calls
    ensures s.frees == 0
  {
    CountPositive(s.handles, HoldsRef);
    assert HoldsRef(s.handles[s.calls[t].handle]);
  }

  /** The second pass, or a later test in it. */
  ghost predicate Carrying(s: State, t: nat, call: Call, id: nat) {
    && t in s.calls && InFlight(s.calls[t]) && Held(s.calls[t]) == Some(id)
    && call.Send? && call == s.calls[t].(passes := 2)
  }

  lemma SecondPassRefused(s: State, t: nat, call: Call, id: nat, wake: Option<nat>, v: Verdict)
    requires Inv(s) && Carrying(s, t, call, id) && v == Judge(s.core, |call.data|, call.block)
    requires v == Closed || v == Full || v == ByteLimit
    ensures Inv(SecondPass(s, t, call, id, wake))
  {
    assert SecondPass(s, t, call, id, wake) == Returned(s.(book := s.book.Frees(id)), t, call, Code(v));
    if v != Closed && s.core.maxMessage <= s.core.maxQueued {
      FullMeansQueued(s, |call.data|);
    }
    ReturnFreedKeeps(s, t, call, Code(v));
  }

  lemma SecondPassEnters(s: State, t: nat, call: Call, id: nat, wake: Option<nat>)
    requires Inv(s) && Carrying(s, t, call, id) && RecvSignal(s, wake)
    requires Judge(s.core, |call.data|, call.block) == Fits
    ensures Inv(SecondPass(s, t, call, id, wake))
  {
    assert SecondPass(s, t, call, id, wake) == Entered(s, t, call, id, wake);
    CallMeansAlive(s, t);
    EnteredKeeps(s, t, call, id, wake);
  }

  lemma SecondPassSleeps(s: State, t: nat, call: Call, id: nat, wake: Option<nat>)
    requires Inv(s) && Carrying(s, t, call, id) && Judge(s.core, |call.data|, call.block) == Wait
    ensures Inv(SecondPass(s, t, call, id, wake))
  {
    SetSendKeeps(s, t, call.(pc := SendAsleep(Some(id))));
  }

  lemma NotTooLarge(s: State, t: nat, call: Call, id: nat)
    requires CallsOk(s.calls, s.log, s.core.maxMessage) && Carrying(s, t, call, id)
    ensures Judge(s.core, |call.data|, call.block) != TooLarge
  {
  }

  lemma SecondPassKeeps(s: State, t: nat, call: Call, id: nat, wake: Option<nat>)
    requires Inv(s) && Carrying(s, t, call, id) && RecvSignal(s, wake)
    ensures Inv(SecondPass(s, t, call, id, wake))
  {
    NotTooLarge(s, t, call, id);
    var v := Judge(s.core, |call.data|, call.block);
    if v == Fits {
      SecondPassEnters(s, t, call, id, wake);
    } else if v == Wait {
      SecondPassSleeps(s, t, call, id, wake);
    } else {
      SecondPassRefused(s, t, call, id, wake, v);
    }
  }

  lemma CopyingCall(c: Call, maxMessage: nat, n: nat, id: nat)
    requires CallOk(c, maxMessage, n) && c.Send? && c.pc.SendCopying?
    ensures CallOk(c.(copies := c.copies + 1, pc := SendRelock(id)), maxMessage, n)
  {
  }

  lemma CopyMadeKeeps(s: State, t: nat, v: Call, id: nat)
    requires Inv(s) && t in s.calls && s.calls[t].Send? && s.calls[t].pc.SendCopying? && id !in s.book.owner
    requires v == s.calls[t].(copies := s.calls[t].copies + 1, pc := SendRelock(id))
    ensures Inv(s.(calls := s.calls[t := v], book := s.book.Copies(id, t)))
  {
    CallHandle(s.calls, s.handles, t);
    SetCallKeepsSound(s, t, v);
    CopiesMade(s.core.queue, s.calls, s.book, t, v, id);
    CopyingCall(s.calls[t], s.core.maxMessage, |LogOf(s.log, t)|, id);
    CallsOkSets(s.calls, s.log, s.core.maxMessage, t, v);
    if !s.faulted {
      SetSendKeepsWakeups(s, t, v);
    }
  }

  lemma SendCopyKeeps(s: State, t: nat, id: nat)
    requires Inv(s) && SendEnabled(s, t, SendCopy(id))
    ensures Inv(SendApply(s, t, SendCopy(id)))
  {
    var v := s.calls[t].(copies := s.calls[t].copies + 1, pc := SendRelock(id));
    assert SendApply(s, t, SendCopy(id)) == s.(calls := s.calls[t := v], book := s.book.Copies(id, t));
    CopyMadeKeeps(s, t, v, id);
  }

  lemma SendErrorKeeps(s: State, t: nat)
    requires Inv(s) && SendEnabled(s, t, SendError)
    ensures Inv(SendApply(s, t, SendError))
  {
    var s1 := s.(faulted := true);
    if Held(s.calls[t]).Some? {
      ReturnFreedKeeps(s1, t, s.calls[t], 2);
    } else {
      ReturnKeeps(s1, t, s.calls[t], 2);
    }
  }

  lemma SendSpuriousKeepsWakeups(s: State, t: nat)
    requires Wakeups(s) && t in s.calls && SendSleeps(s.calls[t])
    ensures Wakeups(s.(calls := s.calls[t := WakeSend(s.calls[t])]))
  {
    CallMoves(s.calls, t, WakeSend(s.calls[t]));
  }

  lemma SendSpuriousKeeps(s: State, t: nat)
    requires Inv(s) && t in s.calls && SendSleeps(s.calls[t])
    ensures Inv(s.(calls := s.calls[t := WakeSend(s.calls[t])]))
  {
    var v := WakeSend(s.calls[t]);
    SetCallKeepsSound(s, t, v);
    OwnSets(s.calls, s.book.owner, t, v);
    CallsOkSets(s.calls, s.log, s.core.maxMessage, t, v);
    if !s.faulted {
      SendSpuriousKeepsWakeups(s, t);
    }
  }

  lemma SendStartKeeps(s: State, t: nat, h: nat, data: Bytes, block: bool)
    requires Inv(s) && SendEnabled(s, t, SendStart(h, data, block))
    ensures Inv(SendApply(s, t, SendStart(h, data, block)))
  {
    FirstPassKeeps(s, t, Send(h, |LogOf(s.log, t)|, data, block, 1, 0, SendCopying));
  }

  lemma SendFailsKeeps(s: State, t: nat, h: nat, data: Bytes, block: bool)
    requires Inv(s) && SendEnabled(s, t, SendFails(h, data, block))
    ensures Inv(SendApply(s, t, SendFails(h, data, block)))
  {
    ReturnKeeps(s, t, Send(h, |LogOf(s.log, t)|, data, block, 0, 0, SendCopying), 2);
  }

  lemma CallHandle(cs: map<nat, Call>, hs: map<nat, Handle>, t: nat)
    requires CallsOpen(cs, hs) && t in cs
    ensures cs[t].handle in hs && hs[cs[t].handle] == Handle(if cs[t].Send? then Sender else Receiver, Open)
  {
  }

  lemma SendRecheckKeeps(s: State, t: nat, wake: Option<nat>)
    requires Inv(s) && SendEnabled(s, t, SendRecheck(wake))
    ensures Inv(SendApply(s, t, SendRecheck(wake)))
  {
    CallHandle(s.calls, s.handles, t);
    if s.calls[t].pc.held.None? {
      FirstPassKeeps(s, t, s.calls[t]);
    } else {
      SecondPassKeeps(s, t, s.calls[t], s.calls[t].pc.held.value, wake);
    }
  }

  lemma SendLockKeeps(s: State, t: nat, wake: Option<nat>)
    requires Inv(s) && SendEnabled(s, t, SendLock(wake))
    ensures Inv(SendApply(s, t, SendLock(wake)))
  {
    SecondPassKeeps(s, t, s.calls[t].(passes := s.calls[t].passes + 1), s.calls[t].pc.copy, wake);
  }

  lemma SendKeeps(s: State, t: nat, e: SendStep)
    requires Inv(s) && SendEnabled(s, t, e)
    ensures Inv(SendApply(s, t, e))
  {
    match e {
      case SendStart(h, data, block) => SendStartKeeps(s, t, h, data, block);
      case SendFails(h, data, block) => SendFailsKeeps(s, t, h, data, block);
      case SendRecheck(wake) => SendRecheckKeeps(s, t, wake);
      case SendCopy(id) => SendCopyKeeps(s, t, id);
      case SendLock(wake) => SendLockKeeps(s, t, wake);
      case SendSpurious => SendSpuriousKeeps(s, t);
      case SendError => SendErrorKeeps(s, t);
    }
  }

  // ---- receives ----

  /** A receive that is awake or new and holds nothing. */
  ghost predicate Looking(s: State, t: nat, h: nat) {
    && OpenHandle(s, h, Receiver)
    && (t in s.calls ==> RecvIsWoken(s.calls[t]) && s.calls[t].handle == h)
  }

  lemma PoppedKeepsSound(s: State, t: nat, h: nat, wake: Option<nat>)
    requires Sound(s) && Looking(s, t, h) && s.core.queue != [] && SendSignal(s, wake)
    ensures Sound(Popped(s, t, h, wake))
  {
  }

  lemma PoppedKeepsWakeups(s: State, t: nat, h: nat, wake: Option<nat>)
    requires Wakeups(s) && Looking(s, t, h) && s.core.queue != [] && SendSignal(s, wake)
    requires !Popped(s, t, h, wake).faulted
    ensures Wakeups(Popped(s, t, h, wake))
  {
    if wake.Some? {
      CallMoves(s.calls, wake.value, WakeSend(s.calls[wake.value]));
    }
    CallMoves(SignalSend(s.calls, wake), t, Recv(h, RecvOut(s.core.queue[0])));
  }

  lemma PoppedKeepsCopies(s: State, t: nat, h: nat, wake: Option<nat>)
    requires Copies(s.core.queue, s.calls, s.book)
    requires Looking(s, t, h) && s.core.queue != [] && SendSignal(s, wake) && s.book.dropped == []
    ensures var u := Popped(s, t, h, wake); Copies(u.core.queue, u.calls, u.book)
  {
    OwnSignalSend(s.calls, s.book.owner, wake);
    CopiesLeave(s.core.queue, SignalSend(s.calls, wake), s.book, t, Recv(h, RecvOut(s.core.queue[0])));
  }

  lemma PoppedKeepsLog(s: State, t: nat, h: nat, wake: Option<nat>)
    requires Logged(s.calls, s.log, s.book.accepted, s.core.maxMessage) && s.core.queue != []
    ensures var u := Popped(s, t, h, wake); Logged(u.calls, u.log, u.book.accepted, u.core.maxMessage)
  {
    CallsOkSignalSend(s.calls, s.log, s.core.maxMessage, wake);
    CallsOkSets(SignalSend(s.calls, wake), s.log, s.core.maxMessage, t, Recv(h, RecvOut(s.core.queue[0])));
  }

  lemma PoppedKeeps(s: State, t: nat, h: nat, wake: Option<nat>)
    requires Inv(s) && Looking(s, t, h) && s.core.queue != [] && SendSignal(s, wake)
    ensures Inv(Popped(s, t, h, wake))
  {
    PoppedKeepsSound(s, t, h, wake);
    PoppedKeepsCopies(s, t, h, wake);
    PoppedKeepsLog(s, t, h, wake);
    if !Popped(s, t, h, wake).faulted {
      PoppedKeepsWakeups(s, t, h, wake);
    }
  }

  lemma RecvSleepsKeeps(s: State, t: nat, h: nat)
    requires Inv(s) && Looking(s, t, h) && s.core.queue == [] && !s.core.closed
    ensures Inv(s.(calls := s.calls[t := Recv(h, RecvAsleep)]))
  {
    var v := Recv(h, RecvAsleep);
    SetCallKeepsSound(s, t, v);
    OwnSets(s.calls, s.book.owner, t, v);
    CallsOkSets(s.calls, s.log, s.core.maxMessage, t, v);
    CallMoves(s.calls, t, v);
  }

  /** A receive that holds nothing returns. */
  lemma RecvEndsKeeps(s: State, t: nat, ended: nat, empties: nat)
    requires Inv(s) && (t in s.calls ==> RecvIsWoken(s.calls[t])) && (s.faulted || s.core.queue == [])
    ensures Inv(s.(calls := s.calls - {t}, ended := ended, empties := empties))
  {
    EndCallKeepsSound(s, t);
    OwnEnds(s.calls, s.book.owner, t);
    CallEnds(s.calls, t);
  }

  lemma RecvGetsKeeps(s: State, t: nat, h: nat, block: bool, wake: Option<nat>)
    requires Inv(s) && Looking(s, t, h) && SendSignal(s, wake) && Receive(s.core, block).Got?
    ensures Inv(RecvPass(s, t, h, block, wake))
  {
    assert RecvPass(s, t, h, block, wake) == Popped(s, t, h, wake);
    PoppedKeeps(s, t, h, wake);
  }

  lemma RecvWaitsKeeps(s: State, t: nat, h: nat, block: bool, wake: Option<nat>)
    requires Inv(s) && Looking(s, t, h) && Receive(s.core, block).Sleep?
    ensures Inv(RecvPass(s, t, h, block, wake))
  {
    RecvSleepsKeeps(s, t, h);
  }

  lemma RecvReturnsKeeps(s: State, t: nat, h: nat, block: bool, wake: Option<nat>)
    requires Inv(s) && Looking(s, t, h) && (Receive(s.core, block).Empty? || Receive(s.core, block).Ended?)
    ensures Inv(RecvPass(s, t, h, block, wake))
  {
    var ended := s.ended + One(Receive(s.core, block).Ended?);
    RecvEndsKeeps(s, t, ended, s.empties + One(Receive(s.core, block).Empty?));
  }

  lemma RecvRecheckKeeps(s: State, t: nat, wake: Option<nat>)
    requires Inv(s) && RecvEnabled(s, t, RecvRecheck(wake))
    ensures Inv(RecvApply(s, t, RecvRecheck(wake)))
  {
    CallHandle(s.calls, s.handles, t);
    RecvPassKeeps(s, t, s.calls[t].handle, true, wake);
  }

  lemma RecvPassKeeps(s: State, t: nat, h: nat, block: bool, wake: Option<nat>)
    requires Inv(s) && Looking(s, t, h) && SendSignal(s, wake)
    ensures Inv(RecvPass(s, t, h, block, wake))
  {
    match Receive(s.core, block) {
      case Got(_) => RecvGetsKeeps(s, t, h, block, wake);
      case Sleep => RecvWaitsKeeps(s, t, h, block, wake);
      case _ => RecvReturnsKeeps(s, t, h, block, wake);
    }
  }

  lemma RecvFinishKeeps(s: State, t: nat)
    requires Inv(s) && t in s.calls && s.calls[t].Recv? && s.calls[t].at.RecvOut?
    ensures Inv(s.(calls := s.calls - {t}, book := s.book.Frees(s.calls[t].at.m.copy)))
  {
    EndCallKeepsSound(s, t);
    CopiesFreed(s.core.queue, s.calls, s.book, t);
    CallEnds(s.calls, t);
  }

  lemma RecvSpuriousKeeps(s: State, t: nat)
    requires Inv(s) && t in s.calls && RecvSleeps(s.calls[t])
    ensures Inv(s.(calls := s.calls[t := WakeRecv(s.calls[t])]))
  {
    var v := WakeRecv(s.calls[t]);
    SetCallKeepsSound(s, t, v);
    OwnSets(s.calls, s.book.owner, t, v);
    CallsOkSets(s.calls, s.log, s.core.maxMessage, t, v);
    CallMoves(s.calls, t, v);
  }

  lemma RecvKeeps(s: State, t: nat, e: RecvStep)
    requires Inv(s) && RecvEnabled(s, t, e)
    ensures Inv(RecvApply(s, t, e))
  {
    match e {
      case RecvStart(h, block, wake) => RecvPassKeeps(s, t, h, block, wake);
      case RecvRecheck(wake) => RecvRecheckKeeps(s, t, wake);
      case RecvSpurious => RecvSpuriousKeeps(s, t);
      case RecvError => RecvEndsKeeps(s.(faulted := true), t, s.ended, s.empties);
      case RecvFinish => RecvFinishKeeps(s, t);
    }
  }

  // ---- handles ----

  lemma WokenKeepsBooks(s: State, readers: bool, writers: bool)
    requires Copies(s.core.queue, s.calls, s.book) && Logged(s.calls, s.log, s.book.accepted, s.core.maxMessage)
    ensures var cs := Woken(s.calls, readers, writers);
            Copies(s.core.queue, cs, s.book) && Logged(cs, s.log, s.book.accepted, s.core.maxMessage)
  {
    OwnWoken(s.calls, s.book.owner, readers, writers);
    CallsOkWoken(s.calls, s.log, s.core.maxMessage, readers, writers);
  }

  lemma WokenKeepsOpen(cs: map<nat, Call>, hs: map<nat, Handle>, readers: bool, writers: bool)
    requires CallsOpen(cs, hs)
    ensures CallsOpen(Woken(cs, readers, writers), hs)
  {
  }

  lemma BroadcastKeeps(s: State, core: Core, readers: bool, writers: bool)
    requires Inv(s) && core == s.core.(closed := core.closed, receiverAlive := core.receiverAlive)
    requires core.closed
    ensures Inv(s.(core := core, calls := Woken(s.calls, readers, writers), shut := true,
                   faulted := s.faulted || !readers || !writers))
  {
    WokenKeepsBooks(s, readers, writers);
    WokenKeepsOpen(s.calls, s.handles, readers, writers);
    AllWake(s.calls);
  }

  lemma OpenedKeepsOpen(cs: map<nat, Call>, hs: map<nat, Handle>, h: nat, v: Handle)
    requires CallsOpen(cs, hs) && h !in hs
    ensures CallsOpen(cs, hs[h := v])
  {
  }

  lemma NewHandleKeeps(s: State, h: nat, e: HandleStep)
    requires Inv(s) && HandleEnabled(s, h, e) && (e.MakeReceiver? || e.ShareSender?)
    ensures Inv(HandleApply(s, h, e))
  {
    var v := Handle(if e.MakeReceiver? then Receiver else Sender, Open);
    HandleMoves(s.handles, e.h2, v);
    OpenedKeepsOpen(s.calls, s.handles, e.h2, v);
    CountPositive(s.handles, HoldsRef);
    CountPositive(s.handles, IsOpenSender);
    assert HoldsRef(s.handles[h]) && IsOpenSender(s.handles[h]);
  }

  /** The calls through other handles do not notice. */
  lemma DropKeepsOpen(cs: map<nat, Call>, hs: map<nat, Handle>, h: nat, v: Handle)
    requires CallsOpen(cs, hs) && forall t :: t in cs ==> cs[t].handle != h
    ensures CallsOpen(cs, hs[h := v])
  {
  }

  lemma DropLockKeepsSound(s: State, h: nat)
    requires Sound(s) && HandleEnabled(s, h, DropLock)
    ensures Sound(HandleApply(s, h, DropLock))
  {
    var v := s.handles[h].(pc := Dropping);
    HandleMoves(s.handles, h, v);
    DropKeepsOpen(s.calls, s.handles, h, v);
    WokenKeepsOpen(s.calls, s.handles[h := v], true, true);
  }

  lemma DropLockKeepsWakeups(s: State, h: nat)
    requires Wakeups(s) && HandleEnabled(s, h, DropLock)
    ensures Wakeups(HandleApply(s, h, DropLock))
  {
    AllWake(s.calls);
  }

  lemma DropLockKeeps(s: State, h: nat)
    requires Inv(s) && HandleEnabled(s, h, DropLock)
    ensures Inv(HandleApply(s, h, DropLock))
  {
    DropLockKeepsSound(s, h);
    WokenKeepsBooks(s, true, true);
    if !s.faulted {
      DropLockKeepsWakeups(s, h);
    }
  }

  lemma ReleaseKeepsOpen(cs: map<nat, Call>, hs: map<nat, Handle>, h: nat, v: Handle)
    requires CallsOpen(cs, hs) && h in hs && !hs[h].pc.Open?
    ensures CallsOpen(cs, hs[h := v])
  {
  }

  /** What dropping a reference does, apart from the books. */
  lemma UnrefEffect(s: State)
    ensures var u := Unref(s);
      && u == s.(refs := u.refs, frees := u.frees, core := u.core, book := u.book) && u.refs == s.refs - 1
      && u.frees == s.frees + One(s.refs == 1) && u.book.accepted == s.book.accepted
      && u.core == (if s.refs == 1 then s.core.(queue := [], queuedBytes := 0) else s.core)
      && (s.refs != 1 ==> u.book == s.book)
  {
  }

  lemma DropReleaseKeepsSound(s: State, h: nat)
    requires Sound(s) && HandleEnabled(s, h, DropRelease)
    ensures Sound(HandleApply(s, h, DropRelease))
  {
    var v := s.handles[h].(pc := Released);
    var s1 := s.(handles := s.handles[h := v]);
    HandleMoves(s.handles, h, v);
    CountPositive(s.handles, HoldsRef);
    ReleaseKeepsOpen(s.calls, s.handles, h, v);
    UnrefEffect(s1);
  }

  lemma DropReleaseKeepsWakeups(s: State, h: nat)
    requires Wakeups(s) && Sound(s) && HandleEnabled(s, h, DropRelease)
    ensures Wakeups(HandleApply(s, h, DropRelease))
  {
    var u := HandleApply(s, h, DropRelease);
    DropReleaseKeepsSound(s, h);
    UnrefEffect(s.(handles := s.handles[h := s.handles[h].(pc := Released)]));
    if u.refs == 0 {
      NobodyLeft(u);
    }
  }

  /** Without references there are no calls. */
  lemma NobodyLeft(s: State)
    requires Sound(s) && s.refs == 0
    ensures Count(s.calls, SendSleeps) == 0 && Count(s.calls, RecvSleeps) == 0
  {
    forall t | t in s.calls ensures false {
      CallMeansAlive(s, t);
    }
    assert At(s.calls, SendSleeps) == {} && At(s.calls, RecvSleeps) == {};
  }

  lemma UnrefKeepsCopies(s: State)
    requires Copies(s.core.queue, s.calls, s.book)
    ensures Copies(Unref(s).core.queue, s.calls, Unref(s).book) && Unref(s).book.accepted == s.book.accepted
  {
    if s.refs == 1 {
      CopiesSwept(s.core.queue, s.calls, s.book);
    }
  }

  lemma DropReleaseKeeps(s: State, h: nat)
    requires Inv(s) && HandleEnabled(s, h, DropRelease)
    ensures Inv(HandleApply(s, h, DropRelease))
  {
    var s1 := s.(handles := s.handles[h := s.handles[h].(pc := Released)]);
    DropReleaseKeepsSound(s, h);
    UnrefEffect(s1);
    UnrefKeepsCopies(s1);
    if !s.faulted {
      DropReleaseKeepsWakeups(s, h);
    }
  }

  lemma HandleKeeps(s: State, h: nat, e: HandleStep)
    requires Inv(s) && HandleEnabled(s, h, e)
    ensures Inv(HandleApply(s, h, e))
  {
    match e {
      case Close(readers, writers) => BroadcastKeeps(s, HandleApply(s, h, e).core, readers, writers);
      case DropLock => DropLockKeeps(s, h);
      case DropRelease => DropReleaseKeeps(s, h);
      case _ => NewHandleKeeps(s, h, e);
    }
  }

  // ---- every run ----

  lemma CreateHolds(capacity: nat, maxMessage: nat, maxQueued: nat)
    requires capacity > 0
    ensures Inv(Create(capacity, maxMessage, maxQueued))
  {
    var s := Create(capacity, maxMessage, maxQueued);
    assert At(s.handles, IsOpenSender) == {0} && At(s.handles, HoldsRef) == {0};
    assert At(s.calls, SendSleeps) == {} && At(s.calls, RecvSleeps) == {};
  }

  lemma StepKeeps(s: State, e: Event)
    requires Inv(s) && Enabled(s, e)
    ensures Inv(Apply(s, e))
  {
    match e {
      case BySend(t, step) => SendKeeps(s, t, step);
      case ByRecv(t, step) => RecvKeeps(s, t, step);
      case ByHandle(h, step) => HandleKeeps(s, h, step);
    }
  }

  lemma {:induction false} RunKeeps(s: State, es: seq<Event>)
    requires Inv(s) && Possible(s, es)
    ensures Inv(After(s, es))
    decreases |es|
  {
    if es != [] {
      StepKeeps(s, es[0]);
      RunKeeps(Apply(s, es[0]), es[1..]);
    }
  }
}
