/** What the invariant means for the users of the owned-bytes channel, over every run. */
module BytesTheorems {
  import opened Threads
  import opened BytesCores
  import opened Endpoints
  import opened BytesChannels
  import opened BytesInvariants
  import opened BytesBooks
  import opened BytesProofs

  /** A state some run reaches from a channel with the given limits. */
  ghost predicate ReachableWith(s: State, capacity: nat, maxMessage: nat, maxQueued: nat) {
    exists es: seq<Event> ::
      Possible(Create(capacity, maxMessage, maxQueued), es) && s == After(Create(capacity, maxMessage, maxQueued), es)
  }

  /** A state of some channel with room for at least one message. */
  ghost predicate Reachable(s: State) {
    s.core.capacity > 0 && ReachableWith(s, s.core.capacity, s.core.maxMessage, s.core.maxQueued)
  }

  /** The limits stay as they are, and a closed channel stays closed. */
  predicate Onward(c: Core, d: Core) {
    && c.capacity == d.capacity && c.maxMessage == d.maxMessage && c.maxQueued == d.maxQueued
    && (c.closed ==> d.closed)
  }

  /** What sends and receives leave alone: handles, limits, endpoints, and a fault that has happened. */
  ghost predicate Steady(s: State, u: State) {
    && u.handles == s.handles && (s.faulted ==> u.faulted)
    && u.core == s.core.(queue := u.core.queue, queuedBytes := u.core.queuedBytes)
  }

  lemma FirstPassSteady(s: State, t: nat, call: Call)
    requires call.Send?
    ensures Steady(s, FirstPass(s, t, call))
  {
  }

  lemma EnteredSteady(s: State, t: nat, call: Call, id: nat, wake: Option<nat>)
    requires call.Send?
    ensures Steady(s, Entered(s, t, call, id, wake))
  {
  }

  lemma SecondPassSteady(s: State, t: nat, call: Call, id: nat, wake: Option<nat>)
    requires call.Send?
    ensures Steady(s, SecondPass(s, t, call, id, wake))
  {
    var v := Judge(s.core, |call.data|, call.block);
    if v == Fits {
      assert SecondPass(s, t, call, id, wake) == Entered(s, t, call, id, wake);
      EnteredSteady(s, t, call, id, wake);
    } else if v != Wait {
      assert SecondPass(s, t, call, id, wake) == Returned(s.(book := s.book.Frees(id)), t, call, Code(v));
    }
  }

  lemma SendRecheckSteady(s: State, t: nat, wake: Option<nat>)
    requires SendEnabled(s, t, SendRecheck(wake))
    ensures Steady(s, SendApply(s, t, SendRecheck(wake)))
  {
    if s.calls[t].pc.held.None? {
      FirstPassSteady(s, t, s.calls[t]);
    } else {
      SecondPassSteady(s, t, s.calls[t], s.calls[t].pc.held.value, wake);
    }
  }

  lemma SendStartSteady(s: State, t: nat, h: nat, data: Bytes, block: bool)
    requires SendEnabled(s, t, SendStart(h, data, block))
    ensures Steady(s, SendApply(s, t, SendStart(h, data, block)))
  {
    FirstPassSteady(s, t, Send(h, |LogOf(s.log, t)|, data, block, 1, 0, SendCopying));
  }

  lemma SendLockSteady(s: State, t: nat, wake: Option<nat>)
    requires SendEnabled(s, t, SendLock(wake))
    ensures Steady(s, SendApply(s, t, SendLock(wake)))
  {
    var call, id := s.calls[t].(passes := s.calls[t].passes + 1), s.calls[t].pc.copy;
    assert SendApply(s, t, SendLock(wake)) == SecondPass(s, t, call, id, wake);
    SecondPassSteady(s, t, call, id, wake);
  }

  lemma SendSteady(s: State, t: nat, e: SendStep)
    requires SendEnabled(s, t, e)
    ensures Steady(s, SendApply(s, t, e))
  {
    match e {
      case SendStart(h, data, block) => SendStartSteady(s, t, h, data, block);
      case SendRecheck(wake) => SendRecheckSteady(s, t, wake);
      case SendLock(wake) => SendLockSteady(s, t, wake);
      case _ =>
    }
  }

  lemma RecvPassSteady(s: State, t: nat, h: nat, block: bool, wake: Option<nat>)
    ensures Steady(s, RecvPass(s, t, h, block, wake))
  {
    if s.core.queue != [] {
      assert RecvPass(s, t, h, block, wake) == Popped(s, t, h, wake);
      PoppedSteady(s, t, h, wake);
    }
  }

  lemma PoppedSteady(s: State, t: nat, h: nat, wake: Option<nat>)
    requires s.core.queue != []
    ensures Steady(s, Popped(s, t, h, wake))
  {
  }

  lemma RecvSteady(s: State, t: nat, e: RecvStep)
    requires RecvEnabled(s, t, e)
    ensures Steady(s, RecvApply(s, t, e))
  {
    match e {
      case RecvStart(h, block, wake) => RecvPassSteady(s, t, h, block, wake);
      case RecvRecheck(wake) => RecvPassSteady(s, t, s.calls[t].handle, true, wake);
      case _ =>
    }
  }

  lemma HandleGoesOnward(s: State, h: nat, e: HandleStep)
    requires HandleEnabled(s, h, e)
    ensures Onward(s.core, HandleApply(s, h, e).core) && (s.faulted ==> HandleApply(s, h, e).faulted)
  {
  }

  lemma StepGoesOnward(s: State, e: Event)
    requires Enabled(s, e)
    ensures Onward(s.core, Apply(s, e).core) && (s.faulted ==> Apply(s, e).faulted)
  {
    match e {
      case BySend(t, step) => SendSteady(s, t, step);
      case ByRecv(t, step) => RecvSteady(s, t, step);
      case ByHandle(h, step) => HandleGoesOnward(s, h, step);
    }
  }

  lemma {:induction false} RunGoesOnward(s: State, es: seq<Event>)
    requires Possible(s, es)
    ensures Onward(s.core, After(s, es).core)
    decreases |es|
  {
    if es != [] {
      StepGoesOnward(s, es[0]);
      RunGoesOnward(Apply(s, es[0]), es[1..]);
    }
  }

  lemma {:induction false} Extend(s: State, es: seq<Event>, e: Event)
    requires Possible(s, es) && Enabled(After(s, es), e)
    ensures Possible(s, es + [e]) && After(s, es + [e]) == Apply(After(s, es), e)
    decreases |es|
  {
    if es == [] {
      assert es + [e] == [e] && [e][1..] == [];
      assert Possible(Apply(s, e), []);
    } else {
      Extend(Apply(s, es[0]), es[1..], e);
      assert (es + [e])[1..] == es[1..] + [e];
    }
  }

  /** One more step from a reachable state. */
  lemma Go(s: State, e: Event, capacity: nat, maxMessage: nat, maxQueued: nat)
    requires ReachableWith(s, capacity, maxMessage, maxQueued) && Enabled(s, e)
    ensures ReachableWith(Apply(s, e), capacity, maxMessage, maxQueued)
  {
    var c0 := Create(capacity, maxMessage, maxQueued);
    var es: seq<Event> :| Possible(c0, es) && s == After(c0, es);
    Extend(c0, es, e);
  }

  lemma Begin(capacity: nat, maxMessage: nat, maxQueued: nat)
    ensures ReachableWith(Create(capacity, maxMessage, maxQueued), capacity, maxMessage, maxQueued)
  {
    var c0 := Create(capacity, maxMessage, maxQueued);
    assert Possible(c0, []) && After(c0, []) == c0;
  }

  lemma ReachableHolds(s: State)
    requires Reachable(s)
    ensures Inv(s)
  {
    var c0 := Create(s.core.capacity, s.core.maxMessage, s.core.maxQueued);
    var es: seq<Event> :| Possible(c0, es) && s == After(c0, es);
    CreateHolds(s.core.capacity, s.core.maxMessage, s.core.maxQueued);
    RunKeeps(c0, es);
  }

  // ---- order ----

  lemma InThree(r: seq<Message>, d: seq<Message>, q: seq<Message>)
    ensures r <= r + d + q && (d == [] ==> r + d + q == r + q)
  {
  }

  /** Accepted messages are the received ones followed by the queued ones, byte for byte. */
  lemma Fifo(s: State)
    requires Reachable(s)
    ensures s.frees == 0 ==> s.book.accepted == s.book.received + s.core.queue
    ensures s.book.received <= s.book.accepted
    ensures |s.core.queue| <= s.core.capacity
    ensures Total(s.core.queue) == s.core.queuedBytes <= s.core.maxQueued
  {
    ReachableHolds(s);
    InThree(s.book.received, s.book.dropped, s.core.queue);
  }

  /** The messages of one thread are accepted in the order it sent them, each with the bytes it sent. */
  lemma ProgramOrder(s: State, i: nat, j: nat)
    requires Reachable(s) && i < j < |s.book.accepted| && s.book.accepted[i].sender == s.book.accepted[j].sender
    ensures s.book.accepted[i].number < s.book.accepted[j].number
  {
    ReachableHolds(s);
  }

  /** A send returns 0 exactly when its message was accepted, once, with its bytes. */
  lemma SentIffAccepted(s: State, t: nat, n: nat)
    requires Reachable(s) && n < |LogOf(s.log, t)|
    ensures LogOf(s.log, t)[n].code == 0 <==>
            exists i :: 0 <= i < |s.book.accepted| && SentBy(s.book.accepted[i], t, n)
    ensures forall i :: 0 <= i < |s.book.accepted| && SentBy(s.book.accepted[i], t, n) ==>
              s.book.accepted[i].data == LogOf(s.log, t)[n].data
    ensures forall i, j :: 0 <= i < j < |s.book.accepted| && SentBy(s.book.accepted[i], t, n) ==>
              !SentBy(s.book.accepted[j], t, n)
  {
    ReachableHolds(s);
  }

  /** A pass of receive that reports the end: everything accepted has been received. */
  lemma EndMeansDrained(s: State, t: nat, e: RecvStep)
    requires Reachable(s) && RecvEnabled(s, t, e) && (e.RecvStart? || e.RecvRecheck?)
    requires Receive(s.core, if e.RecvStart? then e.block else true) == Ended
    ensures s.core.closed && s.book.received == s.book.accepted
  {
    ReachableHolds(s);
    CountPositive(s.handles, HoldsRef);
    var h := if e.RecvStart? then e.h else s.calls[t].handle;
    assert HoldsRef(s.handles[h]);
    assert s.book.received + [] + [] == s.book.received;
  }

  // ---- what sends return ----

  /** Two passes and one copy at most; none for an oversized message; a blocking send never reports a full queue. */
  lemma SendOutcome(s: State, t: nat, n: nat)
    requires Reachable(s) && n < |LogOf(s.log, t)|
    ensures var o := LogOf(s.log, t)[n];
      && o.passes <= 2 && o.copies <= 1
      && (|o.data| > s.core.maxMessage ==> o.copies == 0)
      && (o.code == 3 ==> |o.data| > s.core.maxMessage)
      && (o.block ==> o.code == 0 || o.code == 2 || o.code == 3)
  {
    ReachableHolds(s);
    var o := LogOf(s.log, t)[n];
    assert OutcomeOk(o, s.core.maxMessage);
  }

  /** So decoding the result of a blocking send loses nothing. */
  lemma SendDecodingExact(s: State, t: nat, n: nat)
    requires Reachable(s) && n < |LogOf(s.log, t)| && LogOf(s.log, t)[n].block
    ensures DecodeSend(LogOf(s.log, t)[n].code) == DecodeTrySend(LogOf(s.log, t)[n].code)
  {
    SendOutcome(s, t, n);
  }

  /** The calls that hold the copy `id`. */
  function HoldsCopy(id: nat): Call -> bool { c => Held(c) == Some(id) }

  lemma Holders(cs: map<nat, Call>, owner: map<nat, Owner>, id: nat)
    requires CallsOwn(cs, owner) && id in owner
    ensures Count(cs, HoldsCopy(id)) == One(owner[id].WithCall?)
  {
    assert At(cs, HoldsCopy(id)) == if owner[id].WithCall? then {owner[id].t} else {};
  }

  /**
    Every native copy ever made is in one place: in one slot, held by one call, or freed once. On a
    freed channel all of them are freed.
   */
  lemma CopiesFreedOnce(s: State, id: nat)
    requires Reachable(s) && id in s.book.owner
    ensures multiset(CopiesOf(s.core.queue))[id] + Count(s.calls, HoldsCopy(id)) + s.book.freed[id] == 1
    ensures s.frees == 1 ==> s.book.freed[id] == 1
  {
    ReachableHolds(s);
    Holders(s.calls, s.book.owner, id);
    CopiesDistinct(s.core.queue, id);
    if s.frees == 1 && s.book.owner[id].WithCall? {
      CallMeansAlive(s, s.book.owner[id].t);
    }
  }

  /** Nothing that was not copied is freed. */
  lemma OnlyCopiesFreed(s: State, id: nat)
    requires Reachable(s) && id !in s.book.owner
    ensures s.book.freed[id] == 0 && !Has(s.core.queue, id) && forall t :: t in s.calls ==> Held(s.calls[t]) != Some(id)
  {
    ReachableHolds(s);
  }

  // ---- endpoints ----

  lemma EndpointLifetime(s: State)
    requires Reachable(s)
    ensures s.core.senders == Count(s.handles, IsOpenSender)
    ensures s.core.senders == 0 ==> s.core.closed
    ensures s.made && !s.core.receiverAlive ==> s.core.closed
    ensures s.frees <= 1 && (s.frees == 1 <==> forall h :: h in s.handles ==> s.handles[h].pc.Released?)
    ensures forall e :: Enabled(s, e) ==> s.frees == 0
    ensures !s.faulted && s.core.closed ==>
              forall t :: t in s.calls ==> !SendSleeps(s.calls[t]) && !RecvSleeps(s.calls[t])
  {
    ReachableHolds(s);
    CountPositive(s.handles, HoldsRef);
    assert forall h :: h in s.handles ==> (HoldsRef(s.handles[h]) <==> !s.handles[h].pc.Released?);
    CountPositive(s.calls, SendSleeps);
    CountPositive(s.calls, RecvSleeps);
    forall e | Enabled(s, e) ensures s.frees == 0 {
      NoAccessAfterFree(s, e);
    }
  }

  lemma NoAccessAfterFree(s: State, e: Event)
    requires Inv(s) && Enabled(s, e)
    ensures s.frees == 0
  {
    CountPositive(s.handles, HoldsRef);
    match e {
      case BySend(t, step) =>
        var h := if t in s.calls then s.calls[t].handle else step.h;
        assert HoldsRef(s.handles[h]);
      case ByRecv(t, step) =>
        var h := if t in s.calls then s.calls[t].handle else step.h;
        assert HoldsRef(s.handles[h]);
      case ByHandle(h, _) => assert HoldsRef(s.handles[h]);
    }
  }

  // ---- progress ----

  /** A sleeping sender of an open channel is not alone with an empty queue. */
  ghost predicate NoStuckSender(s: State) {
    (exists t :: t in s.calls && SendSleeps(s.calls[t])) ==>
      s.core.queue != [] || exists t :: t in s.calls && InFlight(s.calls[t])
  }

  lemma SendersProgress(s: State)
    requires Reachable(s) && !s.faulted && s.core.maxMessage <= s.core.maxQueued
    ensures NoStuckSender(s)
  {
    ReachableHolds(s);
    CountPositive(s.calls, SendSleeps);
    CountPositive(s.calls, InFlight);
  }

  lemma ReadersProgress(s: State)
    requires Reachable(s) && !s.faulted
    ensures (exists t :: t in s.calls && RecvSleeps(s.calls[t])) ==> Count(s.calls, RecvIsWoken) >= |s.core.queue|
  {
    ReachableHolds(s);
    CountPositive(s.calls, RecvSleeps);
  }

  predicate IsAwake(c: Call) { !SendSleeps(c) && !RecvSleeps(c) }

  /** A sleeping sender and a sleeping receiver are never left with everybody asleep. */
  lemma NeverAllAsleep(s: State, t: nat, r: nat)
    requires Reachable(s) && !s.faulted && s.core.maxMessage <= s.core.maxQueued
    requires t in s.calls && SendSleeps(s.calls[t]) && r in s.calls && RecvSleeps(s.calls[r])
    ensures exists u :: u in s.calls && IsAwake(s.calls[u])
  {
    SendersProgress(s);
    ReadersProgress(s);
    if s.core.queue != [] {
      CountPositive(s.calls, RecvIsWoken);
      var u :| u in s.calls && RecvIsWoken(s.calls[u]);
      assert IsAwake(s.calls[u]);
    } else {
      var u :| u in s.calls && InFlight(s.calls[u]);
      assert IsAwake(s.calls[u]);
    }
  }

  /** The limits under which no sender can ever be stuck. */
  ghost predicate AlwaysProgresses(capacity: nat, maxMessage: nat, maxQueued: nat) {
    forall s :: ReachableWith(s, capacity, maxMessage, maxQueued) && !s.faulted ==> NoStuckSender(s)
  }

  /** They are exactly those that the wrapper lets through. */
  lemma ProgressIffLimitsValidated(capacity: nat, maxMessage: nat, maxQueued: nat)
    requires capacity > 0
    ensures AlwaysProgresses(capacity, maxMessage, maxQueued) <==> maxMessage <= maxQueued
  {
    var c0 := Create(capacity, maxMessage, maxQueued);
    if maxMessage <= maxQueued {
      forall s | ReachableWith(s, capacity, maxMessage, maxQueued) && !s.faulted ensures NoStuckSender(s) {
        var es: seq<Event> :| Possible(c0, es) && s == After(c0, es);
        RunGoesOnward(c0, es);
        SendersProgress(s);
      }
    } else {
      var s := StuckState(capacity, maxMessage, maxQueued);
      assert !NoStuckSender(s);
    }
  }

  /** Among positive limits the wrapper rejects exactly those under which a sender could be stuck. */
  lemma WrapperRejectsStuckLimits(capacity: nat, maxMessage: nat, maxQueued: nat)
    requires capacity > 0 && maxMessage > 0 && maxQueued > 0
    ensures CheckLimits(capacity, maxMessage, maxQueued).None? <==> AlwaysProgresses(capacity, maxMessage, maxQueued)
  {
    ProgressIffLimitsValidated(capacity, maxMessage, maxQueued);
  }

  /** One blocking send of a message larger than the whole byte budget sleeps on an empty queue. */
  lemma StuckState(capacity: nat, maxMessage: nat, maxQueued: nat) returns (s: State)
    requires capacity > 0 && maxMessage > maxQueued
    ensures ReachableWith(s, capacity, maxMessage, maxQueued) && !s.faulted && !NoStuckSender(s)
  {
    var data: Bytes := seq(maxMessage, _ => 0);
    var e0, e1 := ByHandle(0, MakeReceiver(1)), BySend(7, SendStart(0, data, true));
    var c0 := Create(capacity, maxMessage, maxQueued);
    Begin(capacity, maxMessage, maxQueued);
    Go(c0, e0, capacity, maxMessage, maxQueued);
    var c1 := Apply(c0, e0);
    assert Judge(c1.core, |data|, true) == Wait;
    Go(c1, e1, capacity, maxMessage, maxQueued);
    s := Apply(c1, e1);
    assert s.calls == map[7 := Send(0, 0, data, true, 1, 0, SendAsleep(None))];
    assert SendSleeps(s.calls[7]);
  }
}
