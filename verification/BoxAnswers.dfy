/**
  What each step of the generic channel answers, said of a bounded queue and of the history, and what a
  closed channel never does again.
 */
module BoxAnswers {
  import opened Threads
  import opened BoxCores
  import opened Endpoints
  import opened BoxChannels
  import opened BoxProofs

  // ---- sends ----

  /** The model's answer to a send that looks at the channel now. */
  function Verdict(s: State, box: Box): SendResult { ModelSend(ModelOf(s.core), box).0 }

  /**
    A pass of send waits if and only if it is blocking and the open queue is full. Otherwise it returns
    what the model says: NULL with 0 and the box at the end of the queue, or the box with 1 or 2.
   */
  ghost predicate SendTold(s: State, u: State, c: nat, h: nat, box: Box, block: bool) {
    var r := Verdict(s, box);
    if r == ChannelFull && block then
      u.calls == s.calls[c := Call(h, SendAsleep(box))] && u.core == s.core && u.book.log == s.book.log
    else
      && u.calls.Keys == s.calls.Keys - {c} && ModelOf(u.core) == ModelSend(ModelOf(s.core), box).1
      && u.book.log == s.book.log + multiset{Outcome(box, if r == Sent then None else Some(box), NativeCode(r))}
      && u.book.accepted == (if r == Sent then s.book.accepted + [box] else s.book.accepted)
  }

  lemma SendPassAnswers(s: State, c: nat, h: nat, box: Box, block: bool, wake: Option<nat>)
    requires |s.core.queue| <= s.core.capacity
    ensures SendTold(s, SendPass(s, c, h, box, block, wake), c, h, box, block)
  {
    var v := Judge(s.core, block);
    SendMatchesModel(s.core, box, block);
    if v == Enter {
      assert SendPass(s, c, h, box, block, wake) == SendDone(s, c, box, wake);
      SentAnswers(s, c, box, wake);
    } else if v != Wait {
      assert SendPass(s, c, h, box, block, wake) == Returned(StaysOut(s, box), c, box, Some(box), Code(v));
    }
  }

  lemma SentAnswers(s: State, c: nat, box: Box, wake: Option<nat>)
    ensures var u := SendDone(s, c, box, wake);
      && u.calls.Keys == s.calls.Keys - {c} && u.core == s.core.(queue := s.core.queue + [box])
      && u.book.log == s.book.log + multiset{Outcome(box, None, 0)} && u.book.accepted == s.book.accepted + [box]
  {
    assert Signal(s.calls, wake).Keys == s.calls.Keys;
  }

  lemma SendAnswers(s: State, c: nat, e: CallStep)
    requires Reachable(s) && CallEnabled(s, c, e) && (e.Send? || e.SendRetry?)
    ensures var u := CallApply(s, c, e);
      if e.Send? then SendTold(s, u, c, e.h, e.box, e.block)
      else SendTold(s, u, c, s.calls[c].handle, s.calls[c].pc.box, true)
  {
    ReachableHolds(s);
    if e.Send? {
      SendPassAnswers(s, c, e.h, e.box, e.block, e.wake);
    } else {
      SendPassAnswers(s, c, s.calls[c].handle, s.calls[c].pc.box, true, e.wake);
    }
  }

  /** Errors hand the box back as from a closed channel; a spurious wake-up only wakes. */
  lemma OtherAnswers(s: State, c: nat, e: CallStep)
    requires CallEnabled(s, c, e)
    ensures var u := CallApply(s, c, e);
      && (e.SendFails? ==> u.core == s.core && u.book.log == s.book.log + multiset{Outcome(e.box, Some(e.box), 2)})
      && (e.WaitError? ==> c !in u.calls && u.core == s.core)
      && (e.WaitError? && Sends(s.calls[c]) ==>
            u.book.log == s.book.log + multiset{Outcome(s.calls[c].pc.box, Some(s.calls[c].pc.box), 2)})
      && (e.Spurious? ==> u == s.(calls := s.calls[c := s.calls[c].(pc := u.calls[c].pc)])
                          && (u.calls[c].pc.SendWoken? || u.calls[c].pc.RecvWoken?))
  {
  }

  // ---- receives ----

  /**
    A receive hands out the oldest box, and reports empty or the end, as the model says; a blocking one
    never reports empty, and sleeps exactly where the model would.
   */
  ghost predicate RecvTold(s: State, u: State, c: nat, h: nat, block: bool) {
    match ModelRecv(ModelOf(s.core)).0
    case Received(box) =>
      && u.calls.Keys == s.calls.Keys - {c} && [box] + u.core.queue == s.core.queue && u.ended == s.ended
      && u.book.received == s.book.received + [box]
    case RecvClosed => u == s.(calls := s.calls - {c}, ended := s.ended + 1)
    case RecvEmpty =>
      u == if block then s.(calls := s.calls[c := Call(h, RecvAsleep)])
           else s.(calls := s.calls - {c}, empties := s.empties + 1)
  }

  lemma PoppedAnswers(s: State, c: nat, wake: Option<nat>)
    requires s.core.queue != []
    ensures var u, box := Popped(s, c, wake), s.core.queue[0];
      && u.calls.Keys == s.calls.Keys - {c} && [box] + u.core.queue == s.core.queue && u.ended == s.ended
      && u.book.received == s.book.received + [box] && u.book.accepted == s.book.accepted
      && (u.faulted ==> s.faulted || (wake.None? && Count(s.calls, SendSleeps) > 0))
  {
    assert Signal(s.calls, wake).Keys == s.calls.Keys;
  }

  lemma RecvPassAnswers(s: State, c: nat, h: nat, block: bool, wake: Option<nat>)
    requires s.core.closed || s.core.receiverAlive
    ensures RecvTold(s, RecvPass(s, c, h, block, wake), c, h, block)
  {
    RecvMatchesModel(s.core, block);
    if s.core.queue != [] {
      assert RecvPass(s, c, h, block, wake) == Popped(s, c, wake);
      PoppedAnswers(s, c, wake);
    }
  }

  lemma ReceiverMade(s: State, h: nat)
    requires Sound(s) && OpenHandle(s, h, Receiver)
    ensures s.made && (s.core.closed || s.core.receiverAlive)
  {
  }

  lemma RecvAnswers(s: State, c: nat, e: CallStep)
    requires Reachable(s) && CallEnabled(s, c, e) && (e.Recv? || e.RecvRetry?)
    ensures var u := CallApply(s, c, e);
      if e.Recv? then RecvTold(s, u, c, e.h, e.block) else RecvTold(s, u, c, s.calls[c].handle, true)
  {
    ReachableHolds(s);
    if e.Recv? {
      ReceiverMade(s, e.h);
      RecvPassAnswers(s, c, e.h, e.block, e.wake);
    } else {
      CallHandle(s.calls, s.handles, c);
      ReceiverMade(s, s.calls[c].handle);
      RecvPassAnswers(s, c, s.calls[c].handle, true, e.wake);
    }
  }

  // ---- closing ----

  /** A channel is open exactly as long as nobody has closed it, a sender is left and the receiver is not gone. */
  lemma OpenUntilClosed(s: State)
    requires Reachable(s)
    ensures s.core.closed <==>
            || s.shut || !(exists h :: h in s.handles && IsOpenSender(s.handles[h]))
            || (s.made && !s.core.receiverAlive)
  {
    ReachableHolds(s);
    CountPositive(s.handles, IsOpenSender);
  }

  lemma CloseAnswers(s: State, h: nat, readers: bool, writers: bool)
    requires h in s.handles && s.handles[h].pc.Open?
    ensures HandleEnabled(s, h, Close(readers, writers))
    ensures var u := HandleApply(s, h, Close(readers, writers));
      u.core.closed && u.shut && u.core.queue == s.core.queue && u.calls.Keys == s.calls.Keys && u.handles == s.handles
  {
  }

  /** Sharing and making the receiver add one open handle and leave the queue alone. */
  lemma HandleAnswers(s: State, h: nat, h2: nat)
    requires OpenHandle(s, h, Sender) && h2 !in s.handles
    ensures HandleEnabled(s, h, ShareSender(h2))
    ensures var u := HandleApply(s, h, ShareSender(h2));
      u.handles == s.handles[h2 := Handle(Sender, Open)] && u.core == s.core.(senders := s.core.senders + 1)
    ensures !s.made ==> HandleEnabled(s, h, MakeReceiver(h2))
    ensures !s.made ==> var u := HandleApply(s, h, MakeReceiver(h2));
      u.handles == s.handles[h2 := Handle(Receiver, Open)] && u.core == s.core.(receiverAlive := true) && u.made
  {
  }

  // ---- a closed channel ----

  /** From `s` to `u` boxes are only added to the history; to a closed channel none is, and it stays closed. */
  ghost predicate Grows(s: State, u: State) {
    && s.book.received <= u.book.received && s.ended <= u.ended
    && (s.core.closed ==> u.core.closed && u.book.accepted == s.book.accepted)
  }

  /** As above, and nothing has been received. */
  ghost predicate Keeps(s: State, u: State) {
    && u.book.received == s.book.received && u.ended == s.ended
    && (s.core.closed ==> u.core.closed && u.book.accepted == s.book.accepted)
  }

  lemma SentGrows(s: State, c: nat, box: Box, wake: Option<nat>)
    requires !s.core.closed
    ensures var u := SendDone(s, c, box, wake);
      Keeps(s, u) && (u.faulted ==> s.faulted || (wake.None? && Count(s.calls, RecvSleeps) > 0))
  {
  }

  lemma SendPassGrows(s: State, c: nat, h: nat, box: Box, block: bool, wake: Option<nat>)
    ensures var u := SendPass(s, c, h, box, block, wake);
      Keeps(s, u) && (u.faulted ==> s.faulted || (wake.None? && Count(s.calls, RecvSleeps) > 0))
  {
    if Judge(s.core, block) == Enter {
      assert SendPass(s, c, h, box, block, wake) == SendDone(s, c, box, wake);
      SentGrows(s, c, box, wake);
    }
  }

  lemma RecvPassGrows(s: State, c: nat, h: nat, block: bool, wake: Option<nat>)
    ensures var u := RecvPass(s, c, h, block, wake);
      Grows(s, u) && (u.faulted ==> s.faulted || (wake.None? && Count(s.calls, SendSleeps) > 0))
  {
    if s.core.queue != [] {
      assert RecvPass(s, c, h, block, wake) == Popped(s, c, wake);
      PoppedAnswers(s, c, wake);
    }
  }

  predicate Receives(e: Event) { e.ByCall? && (e.call.Recv? || e.call.RecvRetry?) }

  lemma CallGrows(s: State, c: nat, e: CallStep)
    requires CallEnabled(s, c, e)
    ensures Grows(s, CallApply(s, c, e)) && (!Receives(ByCall(c, e)) ==> Keeps(s, CallApply(s, c, e)))
    ensures CallApply(s, c, e).faulted ==> s.faulted || OsFails(s, ByCall(c, e))
  {
    match e {
      case Send(h, box, block, wake) => SendPassGrows(s, c, h, box, block, wake);
      case SendRetry(wake) => SendPassGrows(s, c, s.calls[c].handle, s.calls[c].pc.box, true, wake);
      case Recv(h, block, wake) => RecvPassGrows(s, c, h, block, wake);
      case RecvRetry(wake) => RecvPassGrows(s, c, s.calls[c].handle, true, wake);
      case _ =>
    }
  }

  lemma HandleGrows(s: State, h: nat, e: HandleStep)
    requires HandleEnabled(s, h, e)
    ensures Keeps(s, HandleApply(s, h, e))
    ensures HandleApply(s, h, e).faulted ==> s.faulted || OsFails(s, ByHandle(h, e))
  {
  }

  lemma StepGrows(s: State, e: Event)
    requires Enabled(s, e)
    ensures Grows(s, Apply(s, e)) && (!Receives(e) ==> Keeps(s, Apply(s, e)))
  {
    match e {
      case ByCall(c, step) => CallGrows(s, c, step);
      case ByHandle(h, step) => HandleGrows(s, h, step);
    }
  }

  /** Whatever happens after a close, no box is accepted any more. */
  lemma {:induction false} ClosedForever(s: State, es: seq<Event>)
    requires Possible(s, es)
    ensures Grows(s, After(s, es))
    decreases |es|
  {
    if es != [] {
      StepGrows(s, es[0]);
      ClosedForever(Apply(s, es[0]), es[1..]);
    }
  }

  /** Some receive has reported the end: everything was received by then. */
  ghost predicate EndTold(s: State) {
    s.ended > 0 ==> s.core.closed && s.book.received == s.book.accepted
  }

  lemma NothingQueued(b: Book, q: seq<Box>)
    requires b.accepted == b.received + b.dropped + q && b.dropped == []
    ensures q == [] <==> b.received == b.accepted
  {
  }

  lemma RecvPassTells(s: State, c: nat, h: nat, block: bool, wake: Option<nat>)
    requires Inv(s) && OpenHandle(s, h, Receiver) && EndTold(s)
    ensures EndTold(RecvPass(s, c, h, block, wake))
  {
    ReceiverMade(s, h);
    RecvPassAnswers(s, c, h, block, wake);
    RecvPassGrows(s, c, h, block, wake);
    HandleMeansAlive(s, h);
    NothingQueued(s.book, s.core.queue);
  }

  lemma StepTells(s: State, e: Event)
    requires Inv(s) && Enabled(s, e) && EndTold(s)
    ensures EndTold(Apply(s, e))
  {
    StepGrows(s, e);
    if Receives(e) {
      if e.call.Recv? {
        RecvPassTells(s, e.c, e.call.h, e.call.block, e.call.wake);
      } else {
        CallHandle(s.calls, s.handles, e.c);
        RecvPassTells(s, e.c, s.calls[e.c].handle, true, e.call.wake);
      }
    }
  }

  lemma {:induction false} RunTells(s: State, es: seq<Event>)
    requires Inv(s) && Possible(s, es) && EndTold(s)
    ensures EndTold(After(s, es))
    decreases |es|
  {
    if es != [] {
      StepTells(s, es[0]);
      StepKeeps(s, es[0]);
      RunTells(Apply(s, es[0]), es[1..]);
    }
  }

  /**
    Once a receive has reported the end, the channel is closed, every accepted box has been received,
    and however the run goes on nothing more is accepted or received.
   */
  lemma EndIsFinal(s: State, es: seq<Event>)
    requires Reachable(s) && s.ended > 0 && Possible(s, es)
    ensures s.core.closed && s.book.received == s.book.accepted
    ensures After(s, es).book.accepted == s.book.accepted && After(s, es).book.received == s.book.received
  {
    var capacity: nat, before: seq<Event> :|
      capacity > 0 && Possible(Create(capacity), before) && s == After(Create(capacity), before);
    CreateHolds(capacity);
    RunTells(Create(capacity), before);
    RunKeeps(Create(capacity), before);
    RunTells(s, es);
    ClosedForever(s, es);
  }

  // ---- faults and progress ----

  /** The OS calls of a step that report an error. */
  ghost predicate OsFails(s: State, e: Event) {
    match e
    case ByCall(_, WaitError) => true
    case ByCall(_, Send(_, _, _, wake)) => wake.None? && Count(s.calls, RecvSleeps) > 0
    case ByCall(_, SendRetry(wake)) => wake.None? && Count(s.calls, RecvSleeps) > 0
    case ByCall(_, Recv(_, _, wake)) => wake.None? && Count(s.calls, SendSleeps) > 0
    case ByCall(_, RecvRetry(wake)) => wake.None? && Count(s.calls, SendSleeps) > 0
    case ByHandle(_, Close(readers, writers)) => !readers || !writers
    case _ => false
  }

  /** Only a failing OS call makes a run faulty. */
  lemma FaultsComeFromOs(s: State, e: Event)
    requires Enabled(s, e)
    ensures Apply(s, e).faulted ==> s.faulted || OsFails(s, e)
  {
    match e {
      case ByCall(c, step) => CallGrows(s, c, step);
      case ByHandle(h, step) => HandleGrows(s, h, step);
    }
  }

  /** Whoever has an open handle can send, or receive. */
  lemma CallsMayStart(s: State, c: nat, h: nat, box: Box, block: bool)
    requires c !in s.calls && box !in s.book.owner
    ensures OpenHandle(s, h, Sender) ==> CallEnabled(s, c, Send(h, box, block, None))
    ensures OpenHandle(s, h, Receiver) ==> CallEnabled(s, c, Recv(h, block, None))
  {
  }

  /** A call that is awake can look again, without an error of the OS. */
  lemma CallGoesOn(s: State, c: nat) returns (e: CallStep)
    requires c in s.calls && !SendSleeps(s.calls[c]) && !RecvSleeps(s.calls[c])
    ensures CallEnabled(s, c, e) && !OsFails(s, ByCall(c, e))
  {
    if Sends(s.calls[c]) {
      var wake := SomeSleeper(s.calls, RecvSleeps);
      e := SendRetry(wake);
    } else {
      var wake := SomeSleeper(s.calls, SendSleeps);
      e := RecvRetry(wake);
    }
  }
}
