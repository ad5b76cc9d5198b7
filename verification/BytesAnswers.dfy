/**
  What each step of the owned-bytes channel answers, said of the sequential model and of the history,
  and what a closed channel never does again.
 */
module BytesAnswers {
  import opened Threads
  import opened BytesCores
  import opened Endpoints
  import opened BytesChannels
  import opened BytesInvariants
  import opened BytesProofs
  import opened BytesTheorems

  // ---- sends ----

  /** The model's answer to a send that looks at the channel now. */
  function Verdict(s: State, data: Bytes): SendResult { ModelSend(ModelOf(s.core), data).0 }

  /** The send of `t` has returned `r`. */
  ghost predicate Returns(s: State, u: State, t: nat, call: Call, r: SendResult)
    requires call.Send?
  {
    && u.calls.Keys == s.calls.Keys - {t}
    && u.log == s.log[t := LogOf(s.log, t)
                           + [Outcome(call.data, call.block, NativeCode(r), call.passes, call.copies)]]
  }

  /** The send of `t` sleeps and nothing else has happened. */
  ghost predicate FallsAsleep(s: State, u: State, t: nat, call: Call, held: Option<nat>)
    requires call.Send?
  {
    u == s.(calls := s.calls[t := call.(pc := SendAsleep(held))])
  }

  /** Without a copy yet: no room puts a blocking send to sleep, room sends it off to copy, all else is returned. */
  lemma FirstPassAnswers(s: State, t: nat, call: Call)
    requires Sizes(s.core) && call.Send?
    ensures FirstTold(s, FirstPass(s, t, call), t, call, Verdict(s, call.data))
  {
    var v := Judge(s.core, |call.data|, call.block);
    SendMatchesModel(s.core, call.data, call.block);
    if v != Fits && v != Wait {
      assert FirstPass(s, t, call) == Returned(s, t, call, Code(v));
      ReturnedAnswers(s, t, call, Verdict(s, call.data));
    }
  }

  ghost predicate FirstTold(s: State, u: State, t: nat, call: Call, r: SendResult)
    requires call.Send?
  {
    if r == Sent then u == s.(calls := s.calls[t := call.(pc := SendCopying)])
    else if NoRoom(r) && call.block then FallsAsleep(s, u, t, call, None)
    else Returns(s, u, t, call, r) && u.core == s.core && u.book == s.book
  }

  lemma ReturnedAnswers(s: State, t: nat, call: Call, r: SendResult)
    requires call.Send?
    ensures Returns(s, Returned(s, t, call, NativeCode(r)), t, call, r)
  {
  }

  lemma SignalKeys(cs: map<nat, Call>, wake: Option<nat>)
    ensures SignalRecv(cs, wake).Keys == cs.Keys && SignalSend(cs, wake).Keys == cs.Keys
  {
  }

  /** With its copy: room means accepted, with these bytes, and 0; a refusal frees the copy. */
  lemma SecondPassAnswers(s: State, t: nat, call: Call, id: nat, wake: Option<nat>)
    requires Sizes(s.core) && call.Send?
    ensures SecondTold(s, SecondPass(s, t, call, id, wake), t, call, id, Verdict(s, call.data))
  {
    SendMatchesModel(s.core, call.data, call.block);
    if Verdict(s, call.data) == Sent {
      EnteredAnswers(s, t, call, id, wake);
    } else if !(NoRoom(Verdict(s, call.data)) && call.block) {
      FreedAnswers(s, t, call, id, wake);
    }
  }

  lemma FreedAnswers(s: State, t: nat, call: Call, id: nat, wake: Option<nat>)
    requires Sizes(s.core) && call.Send?
    requires Verdict(s, call.data) != Sent && !(NoRoom(Verdict(s, call.data)) && call.block)
    ensures SecondTold(s, SecondPass(s, t, call, id, wake), t, call, id, Verdict(s, call.data))
  {
    var v := Judge(s.core, |call.data|, call.block);
    SendMatchesModel(s.core, call.data, call.block);
    assert SecondPass(s, t, call, id, wake) == Returned(s.(book := s.book.Frees(id)), t, call, Code(v));
    ReturnedAnswers(s.(book := s.book.Frees(id)), t, call, Verdict(s, call.data));
  }

  ghost predicate SecondTold(s: State, u: State, t: nat, call: Call, id: nat, r: SendResult)
    requires call.Send?
  {
    if NoRoom(r) && call.block then FallsAsleep(s, u, t, call, Some(id))
    else
      && Returns(s, u, t, call, r)
      && (if r == Sent then u.book.accepted == s.book.accepted + [Message(call.data, id, t, call.number)]
          else u.core == s.core && u.book == s.book.Frees(id))
  }

  lemma EnteredAnswers(s: State, t: nat, call: Call, id: nat, wake: Option<nat>)
    requires call.Send?
    ensures Returns(s, Entered(s, t, call, id, wake), t, call, Sent)
    ensures Entered(s, t, call, id, wake).book.accepted
            == s.book.accepted + [Message(call.data, id, t, call.number)]
  {
    SignalKeys(s.calls, wake);
  }

  /** Where the log of `t` ends with the code `code`. */
  predicate LastCode(log: seq<Outcome>, code: nat) { |log| > 0 && log[|log| - 1].code == code }

  /** A new send looks first; what it is told is what the model says. */
  lemma SendStartAnswers(s: State, t: nat, h: nat, data: Bytes, block: bool)
    requires Reachable(s) && SendEnabled(s, t, SendStart(h, data, block))
    ensures var call := Send(h, |LogOf(s.log, t)|, data, block, 1, 0, SendCopying);
      FirstTold(s, SendApply(s, t, SendStart(h, data, block)), t, call, Verdict(s, data))
  {
    ReachableHolds(s);
    FirstPassAnswers(s, t, Send(h, |LogOf(s.log, t)|, data, block, 1, 0, SendCopying));
  }

  /** A woken send looks again, with the copy it may hold. */
  lemma SendRecheckAnswers(s: State, t: nat, wake: Option<nat>)
    requires Reachable(s) && SendEnabled(s, t, SendRecheck(wake))
    ensures var u, call := SendApply(s, t, SendRecheck(wake)), s.calls[t];
      if call.pc.held == None then FirstTold(s, u, t, call, Verdict(s, call.data))
      else SecondTold(s, u, t, call, call.pc.held.value, Verdict(s, call.data))
  {
    ReachableHolds(s);
    if s.calls[t].pc.held == None {
      FirstPassAnswers(s, t, s.calls[t]);
    } else {
      SecondPassAnswers(s, t, s.calls[t], s.calls[t].pc.held.value, wake);
    }
  }

  /** A send that comes back with its copy looks again. */
  lemma SendLockAnswers(s: State, t: nat, wake: Option<nat>)
    requires Reachable(s) && SendEnabled(s, t, SendLock(wake))
    ensures var call := s.calls[t].(passes := s.calls[t].passes + 1);
      SecondTold(s, SendApply(s, t, SendLock(wake)), t, call, s.calls[t].pc.copy, Verdict(s, call.data))
  {
    var call := s.calls[t].(passes := s.calls[t].passes + 1);
    ReachableHolds(s);
    assert SendApply(s, t, SendLock(wake)) == SecondPass(s, t, call, s.calls[t].pc.copy, wake);
    SecondPassAnswers(s, t, call, s.calls[t].pc.copy, wake);
  }

  /** The other steps: the copy, a spurious wake-up, and errors, which are reported as closed. */
  lemma SendOtherAnswers(s: State, t: nat, e: SendStep)
    requires SendEnabled(s, t, e)
    ensures var u := SendApply(s, t, e);
      && (e.SendCopy? ==> t in u.calls && u.calls[t].Send? && u.calls[t].pc == SendRelock(e.id)
                          && u.calls[t].data == s.calls[t].data && u.core == s.core)
      && (e.SendSpurious? ==> u == s.(calls := s.calls[t := s.calls[t].(pc := SendWoken(s.calls[t].pc.held))]))
      && (e.SendFails? || e.SendError? ==> t !in u.calls && u.core == s.core && LastCode(LogOf(u.log, t), 2))
  {
  }

  // ---- receives ----

  /**
    A receive hands out the oldest message, and reports empty or the end, as the model says; a blocking
    one never reports empty, and sleeps exactly where the model would.
   */
  lemma RecvAnswers(s: State, t: nat, e: RecvStep)
    requires Reachable(s) && RecvEnabled(s, t, e) && (e.RecvStart? || e.RecvRecheck?)
    ensures var h, block := if e.RecvStart? then e.h else s.calls[t].handle, e.RecvStart? ==> e.block;
      RecvTold(s, RecvApply(s, t, e), t, h, block, ModelRecv(ModelOf(s.core)).0)
  {
    ReachableHolds(s);
    if e.RecvStart? {
      ReceiverMade(s, e.h);
      RecvPassAnswers(s, t, e.h, e.block, e.wake);
    } else {
      CallHandle(s.calls, s.handles, t);
      ReceiverMade(s, s.calls[t].handle);
      RecvPassAnswers(s, t, s.calls[t].handle, true, e.wake);
    }
  }

  ghost predicate RecvTold(s: State, u: State, t: nat, h: nat, block: bool, r: RecvResult) {
    match r
    case Received(data) =>
      && s.core.queue != [] && s.core.queue[0].data == data
      && u.core.queue == s.core.queue[1..] && u.book.received == s.book.received + [s.core.queue[0]]
      && t in u.calls && u.calls[t] == Recv(h, RecvOut(s.core.queue[0])) && u.ended == s.ended
    case RecvClosed => u == s.(calls := s.calls - {t}, ended := s.ended + 1)
    case RecvEmpty =>
      u == if block then s.(calls := s.calls[t := Recv(h, RecvAsleep)])
           else s.(calls := s.calls - {t}, empties := s.empties + 1)
  }

  lemma PoppedAnswers(s: State, t: nat, h: nat, block: bool, wake: Option<nat>)
    requires s.core.queue != []
    ensures RecvTold(s, Popped(s, t, h, wake), t, h, block, Received(s.core.queue[0].data))
  {
  }

  lemma RecvPassAnswers(s: State, t: nat, h: nat, block: bool, wake: Option<nat>)
    requires s.core.closed || s.core.receiverAlive
    ensures RecvTold(s, RecvPass(s, t, h, block, wake), t, h, block, ModelRecv(ModelOf(s.core)).0)
  {
    RecvMatchesModel(s.core, block);
    if s.core.queue != [] {
      assert RecvPass(s, t, h, block, wake) == Popped(s, t, h, wake);
      PoppedAnswers(s, t, h, block, wake);
    }
  }

  lemma ReceiverMade(s: State, h: nat)
    requires Sound(s) && OpenHandle(s, h, Receiver)
    ensures s.made && (s.core.closed || s.core.receiverAlive)
  {
  }

  /** The other steps: the message is handed over and its copy freed, a spurious wake-up, an error. */
  lemma RecvOtherAnswers(s: State, t: nat, e: RecvStep)
    requires RecvEnabled(s, t, e)
    ensures var u := RecvApply(s, t, e);
      && (e.RecvFinish? ==> u == s.(calls := s.calls - {t}, book := s.book.Frees(s.calls[t].at.m.copy)))
      && (e.RecvSpurious? ==> u == s.(calls := s.calls[t := Recv(s.calls[t].handle, RecvWoken)]))
      && (e.RecvError? ==> u == s.(calls := s.calls - {t}, faulted := true))
  {
  }

  // ---- closing ----

  /** A channel is open exactly as long as nobody has closed it, a sender is left and the receiver is not gone. */
  lemma OpenUntilClosed(s: State)
    requires Reachable(s)
    ensures s.core.closed <==>
            || s.shut || !(exists h :: h in s.handles && IsOpenSender(s.handles[h]))
            || (s.made && !s.core.receiverAlive)
  {
    ReachableHolds(s);
    CountPositive(s.handles, IsOpenSender);
  }

  lemma CloseAnswers(s: State, h: nat, readers: bool, writers: bool)
    requires h in s.handles && s.handles[h].pc.Open?
    ensures HandleEnabled(s, h, Close(readers, writers))
    ensures var u := HandleApply(s, h, Close(readers, writers));
      u.core.closed && u.shut && u.core.queue == s.core.queue && u.calls.Keys == s.calls.Keys && u.handles == s.handles
  {
  }

  /** Sharing and making the receiver add one open handle and leave the queue alone. */
  lemma HandleAnswers(s: State, h: nat, h2: nat)
    requires OpenHandle(s, h, Sender) && h2 !in s.handles
    ensures HandleEnabled(s, h, ShareSender(h2))
    ensures var u := HandleApply(s, h, ShareSender(h2));
      u.handles == s.handles[h2 := Handle(Sender, Open)] && u.core == s.core.(senders := s.core.senders + 1)
    ensures !s.made ==> HandleEnabled(s, h, MakeReceiver(h2))
    ensures !s.made ==> var u := HandleApply(s, h, MakeReceiver(h2));
      u.handles == s.handles[h2 := Handle(Receiver, Open)] && u.core == s.core.(receiverAlive := true) && u.made
  {
  }

  // ---- a closed channel ----

  /** From `s` to `u` messages are only added to the history; to a closed channel none is. */
  ghost predicate Grows(s: State, u: State) {
    && s.book.received <= u.book.received
    && (s.core.closed ==> u.book.accepted == s.book.accepted)
    && s.ended <= u.ended
  }

  /** As above, and nothing has been received. */
  ghost predicate Keeps(s: State, u: State) {
    && u.book.received == s.book.received && u.ended == s.ended
    && (s.core.closed ==> u.book.accepted == s.book.accepted)
  }

  lemma ReturnedKeeps(s: State, u: State, t: nat, call: Call, code: nat)
    requires call.Send? && Keeps(s, u)
    ensures Keeps(s, Returned(u, t, call, code)) && Returned(u, t, call, code).faulted == u.faulted
  {
  }

  lemma FirstPassGrows(s: State, t: nat, call: Call)
    requires call.Send?
    ensures Keeps(s, FirstPass(s, t, call)) && FirstPass(s, t, call).faulted == s.faulted
  {
    var v := Judge(s.core, |call.data|, call.block);
    if v != Fits && v != Wait {
      assert FirstPass(s, t, call) == Returned(s, t, call, Code(v));
      ReturnedKeeps(s, s, t, call, Code(v));
    }
  }

  lemma EnteredGrows(s: State, t: nat, call: Call, id: nat, wake: Option<nat>)
    requires call.Send? && !s.core.closed
    ensures Keeps(s, Entered(s, t, call, id, wake))
    ensures Entered(s, t, call, id, wake).faulted ==> s.faulted || (wake.None? && Count(s.calls, RecvSleeps) > 0)
  {
  }

  lemma SecondPassGrows(s: State, t: nat, call: Call, id: nat, wake: Option<nat>)
    requires call.Send?
    ensures Keeps(s, SecondPass(s, t, call, id, wake))
    ensures SecondPass(s, t, call, id, wake).faulted ==> s.faulted || (wake.None? && Count(s.calls, RecvSleeps) > 0)
  {
    var v := Judge(s.core, |call.data|, call.block);
    if v == Fits {
      assert SecondPass(s, t, call, id, wake) == Entered(s, t, call, id, wake);
      EnteredGrows(s, t, call, id, wake);
    } else if v != Wait {
      assert SecondPass(s, t, call, id, wake) == Returned(s.(book := s.book.Frees(id)), t, call, Code(v));
      ReturnedKeeps(s, s.(book := s.book.Frees(id)), t, call, Code(v));
    }
  }

  lemma SendRecheckGrows(s: State, t: nat, wake: Option<nat>)
    requires SendEnabled(s, t, SendRecheck(wake))
    ensures Keeps(s, SendApply(s, t, SendRecheck(wake)))
    ensures SendApply(s, t, SendRecheck(wake)).faulted ==> s.faulted || (wake.None? && Count(s.calls, RecvSleeps) > 0)
  {
    if s.calls[t].pc.held == None {
      FirstPassGrows(s, t, s.calls[t]);
    } else {
      SecondPassGrows(s, t, s.calls[t], s.calls[t].pc.held.value, wake);
    }
  }

  lemma SendLockGrows(s: State, t: nat, wake: Option<nat>)
    requires SendEnabled(s, t, SendLock(wake))
    ensures Keeps(s, SendApply(s, t, SendLock(wake)))
    ensures SendApply(s, t, SendLock(wake)).faulted ==> s.faulted || (wake.None? && Count(s.calls, RecvSleeps) > 0)
  {
    var call, id := s.calls[t].(passes := s.calls[t].passes + 1), s.calls[t].pc.copy;
    assert SendApply(s, t, SendLock(wake)) == SecondPass(s, t, call, id, wake);
    SecondPassGrows(s, t, call, id, wake);
  }

  lemma SendGrows(s: State, t: nat, e: SendStep)
    requires SendEnabled(s, t, e)
    ensures Keeps(s, SendApply(s, t, e))
    ensures SendApply(s, t, e).faulted ==> s.faulted || OsFails(s, BySend(t, e))
  {
    match e {
      case SendStart(h, data, block) =>
        FirstPassGrows(s, t, Send(h, |LogOf(s.log, t)|, data, block, 1, 0, SendCopying));
      case SendRecheck(wake) => SendRecheckGrows(s, t, wake);
      case SendLock(wake) => SendLockGrows(s, t, wake);
      case _ =>
    }
  }

  lemma RecvPassGrows(s: State, t: nat, h: nat, block: bool, wake: Option<nat>)
    ensures Grows(s, RecvPass(s, t, h, block, wake))
    ensures RecvPass(s, t, h, block, wake).faulted ==> s.faulted || (wake.None? && Count(s.calls, SendSleeps) > 0)
  {
    if s.core.queue != [] {
      assert RecvPass(s, t, h, block, wake) == Popped(s, t, h, wake);
    }
  }

  lemma RecvGrows(s: State, t: nat, e: RecvStep)
    requires RecvEnabled(s, t, e)
    ensures Grows(s, RecvApply(s, t, e))
    ensures RecvApply(s, t, e).faulted ==> s.faulted || OsFails(s, ByRecv(t, e))
  {
    match e {
      case RecvStart(h, block, wake) => RecvPassGrows(s, t, h, block, wake);
      case RecvRecheck(wake) => RecvPassGrows(s, t, s.calls[t].handle, true, wake);
      case _ =>
    }
  }

  lemma HandleGrows(s: State, h: nat, e: HandleStep)
    requires HandleEnabled(s, h, e)
    ensures Keeps(s, HandleApply(s, h, e))
    ensures HandleApply(s, h, e).faulted ==> s.faulted || OsFails(s, ByHandle(h, e))
  {
  }

  lemma StepGrows(s: State, e: Event)
    requires Enabled(s, e)
    ensures Grows(s, Apply(s, e)) && (!e.ByRecv? ==> Keeps(s, Apply(s, e)))
  {
    match e {
      case BySend(t, step) => SendGrows(s, t, step);
      case ByRecv(t, step) => RecvGrows(s, t, step);
      case ByHandle(h, step) => HandleGrows(s, h, step);
    }
  }

  /** Whatever happens after a close, no message is accepted any more. */
  lemma {:induction false} ClosedForever(s: State, es: seq<Event>)
    requires Inv(s) && Possible(s, es)
    ensures Grows(s, After(s, es)) && (s.core.closed ==> After(s, es).core.closed)
    decreases |es|
  {
    if es != [] {
      StepGrows(s, es[0]);
      StepGoesOnward(s, es[0]);
      StepKeeps(s, es[0]);
      ClosedForever(Apply(s, es[0]), es[1..]);
    }
  }

  /** Some receive has reported the end: everything was received by then. */
  ghost predicate EndTold(s: State) {
    s.ended > 0 ==> s.core.closed && s.book.received == s.book.accepted
  }

  lemma RecvPassTells(s: State, t: nat, h: nat, block: bool, wake: Option<nat>)
    requires Inv(s) && OpenHandle(s, h, Receiver) && EndTold(s)
    ensures EndTold(RecvPass(s, t, h, block, wake))
  {
    ReceiverMade(s, h);
    RecvPassAnswers(s, t, h, block, wake);
    RecvPassGrows(s, t, h, block, wake);
    OpenMeansAlive(s, h);
    NothingQueued(s.book, s.core.queue);
  }

  lemma NothingQueued(b: Book, q: seq<Message>)
    requires b.accepted == b.received + b.dropped + q && b.dropped == []
    ensures q == [] <==> b.received == b.accepted
  {
  }

  lemma OpenMeansAlive(s: State, h: nat)
    requires Sound(s) && h in s.handles && s.handles[h].pc.Open?
    ensures s.frees == 0 && s.book.dropped == []
  {
    CountPositive(s.handles, HoldsRef);
    assert HoldsRef(s.handles[h]);
  }

  lemma RecvTells(s: State, t: nat, e: RecvStep)
    requires Inv(s) && RecvEnabled(s, t, e) && EndTold(s)
    ensures EndTold(RecvApply(s, t, e))
  {
    match e {
      case RecvStart(h, block, wake) => RecvPassTells(s, t, h, block, wake);
      case RecvRecheck(wake) =>
        CallHandle(s.calls, s.handles, t);
        RecvPassTells(s, t, s.calls[t].handle, true, wake);
      case _ =>
    }
  }

  lemma StepTells(s: State, e: Event)
    requires Inv(s) && Enabled(s, e) && EndTold(s)
    ensures EndTold(Apply(s, e))
  {
    StepGrows(s, e);
    StepGoesOnward(s, e);
    if e.ByRecv? {
      RecvTells(s, e.t, e.recv);
    }
  }

  lemma {:induction false} RunTells(s: State, es: seq<Event>)
    requires Inv(s) && Possible(s, es) && EndTold(s)
    ensures EndTold(After(s, es))
    decreases |es|
  {
    if es != [] {
      StepTells(s, es[0]);
      StepKeeps(s, es[0]);
      RunTells(Apply(s, es[0]), es[1..]);
    }
  }

  /**
    Once a receive has reported the end, the channel is closed, every accepted message has been
    received, and however the run goes on nothing more is accepted or received.
   */
  lemma EndIsFinal(s: State, es: seq<Event>)
    requires Reachable(s) && s.ended > 0 && Possible(s, es)
    ensures s.core.closed && s.book.received == s.book.accepted
    ensures After(s, es).book.accepted == s.book.accepted && After(s, es).book.received == s.book.received
  {
    var c0 := Create(s.core.capacity, s.core.maxMessage, s.core.maxQueued);
    var before: seq<Event> :| Possible(c0, before) && s == After(c0, before);
    CreateHolds(s.core.capacity, s.core.maxMessage, s.core.maxQueued);
    RunTells(c0, before);
    ReachableHolds(s);
    RunTells(s, es);
    ClosedForever(s, es);
  }

  // ---- limits ----

  /** Which limits are rejected, and with which error. */
  lemma LimitsAnswers(capacity: int, maxMessage: int, maxQueued: int)
    ensures var r := CheckLimits(capacity, maxMessage, maxQueued);
      && (r == None <==> capacity >= 1 && 1 <= maxMessage <= maxQueued)
      && (r == Some(InvalidCapacity) <==> capacity < 1)
      && (r == Some(InvalidMessageSizeLimit) <==> capacity >= 1 > maxMessage)
      && (r == Some(InvalidQueuedByteLimit) <==> capacity >= 1 && maxMessage >= 1 > maxQueued)
      && (r == Some(InvalidOwnedBytesLimits) <==> capacity >= 1 && maxMessage > maxQueued >= 1)
  {
  }

  // ---- faults and progress ----

  /** The OS calls of a step that report an error. */
  ghost predicate OsFails(s: State, e: Event) {
    match e
    case BySend(t, SendError) => true
    case BySend(t, SendLock(wake)) => wake.None? && Count(s.calls, RecvSleeps) > 0
    case BySend(t, SendRecheck(wake)) => wake.None? && Count(s.calls, RecvSleeps) > 0
    case ByRecv(t, RecvError) => true
    case ByRecv(t, RecvStart(_, _, wake)) => wake.None? && Count(s.calls, SendSleeps) > 0
    case ByRecv(t, RecvRecheck(wake)) => wake.None? && Count(s.calls, SendSleeps) > 0
    case ByHandle(_, Close(readers, writers)) => !readers || !writers
    case _ => false
  }

  /** Only a failing OS call makes a run faulty. */
  lemma FaultsComeFromOs(s: State, e: Event)
    requires Enabled(s, e)
    ensures Apply(s, e).faulted ==> s.faulted || OsFails(s, e)
  {
    match e {
      case BySend(t, step) => SendGrows(s, t, step);
      case ByRecv(t, step) => RecvGrows(s, t, step);
      case ByHandle(h, step) => HandleGrows(s, h, step);
    }
  }

  /** Whoever has an open handle can send, or receive. */
  lemma CallsMayStart(s: State, t: nat, h: nat, data: Bytes, block: bool)
    requires t !in s.calls
    ensures OpenHandle(s, h, Sender) ==> SendEnabled(s, t, SendStart(h, data, block))
    ensures OpenHandle(s, h, Receiver) ==> RecvEnabled(s, t, RecvStart(h, block, None))
  {
  }

  /** A fresh id for a copy. */
  lemma FreshCopy(owner: map<nat, Owner>) returns (id: nat)
    ensures id !in owner
  {
    id := Above(owner.Keys);
    assert id !in owner.Keys;
  }

  lemma {:induction false} Above(ids: set<nat>) returns (id: nat)
    ensures forall i :: i in ids ==> i < id
  {
    if ids == {} {
      id := 0;
    } else {
      var i :| i in ids;
      var b := Above(ids - {i});
      assert forall j :: j in ids ==> j == i || j in ids - {i};
      id := if i < b then b else i + 1;
    }
  }

  /** A call that is awake has a next step that is not an error of the OS. */
  lemma CallGoesOn(s: State, t: nat) returns (e: Event)
    requires t in s.calls && !SendSleeps(s.calls[t]) && !RecvSleeps(s.calls[t])
    ensures Enabled(s, e) && (e.BySend? || e.ByRecv?) && e.t == t && !OsFails(s, e)
  {
    if s.calls[t].Send? {
      var wake := SomeSleeper(s.calls, RecvSleeps);
      var id := FreshCopy(s.book.owner);
      e := BySend(t, match s.calls[t].pc
                     case SendWoken(_) => SendRecheck(wake)
                     case SendCopying => SendCopy(id)
                     case _ => SendLock(wake));
    } else {
      var wake := SomeSleeper(s.calls, SendSleeps);
      e := ByRecv(t, if s.calls[t].at.RecvWoken? then RecvRecheck(wake) else RecvFinish);
    }
  }
}
