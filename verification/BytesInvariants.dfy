/**
  What every step of the owned-bytes channel keeps: the counters, who frees each copy, the order of
  the messages, what each send returned, and, while nothing fails, that no wake-up is lost.
 */
module BytesInvariants {
  import opened Threads
  import opened BytesCores
  import opened Endpoints
  import opened BytesChannels

  predicate RightRole(c: Call, h: Handle) { h.pc.Open? && h.role.Sender? == c.Send? }

  ghost predicate CallsOpen(cs: map<nat, Call>, hs: map<nat, Handle>) {
    forall t :: t in cs ==> cs[t].handle in hs && RightRole(cs[t], hs[cs[t].handle])
  }

  predicate Sizes(core: Core) {
    && 0 < core.capacity && |core.queue| <= core.capacity
    && core.queuedBytes == Total(core.queue) <= core.maxQueued
  }

  ghost predicate Counters(senders: int, refs: int, frees: nat, hs: map<nat, Handle>) {
    && senders == Count(hs, IsOpenSender)
    && refs == Count(hs, HoldsRef)
    && frees == One(refs == 0)
  }

  predicate Ends(core: Core, made: bool, frees: nat, dropped: seq<Message>) {
    && (core.senders == 0 ==> core.closed)
    && (made && !core.receiverAlive ==> core.closed)
    && (frees == 0 ==> dropped == [])
    && (frees != 0 ==> core.queue == [])
  }

  /** A channel is open as long as nobody has closed it, a sender is left and the receiver is not gone. */
  predicate Opened(core: Core, made: bool, shut: bool) {
    core.closed <==> shut || core.senders == 0 || (made && !core.receiverAlive)
  }

  ghost predicate OnlySenders(hs: map<nat, Handle>) { forall h :: h in hs ==> hs[h].role.Sender? }

  ghost predicate Sound(s: State) {
    && CallsOpen(s.calls, s.handles) && Sizes(s.core) && Counters(s.core.senders, s.refs, s.frees, s.handles)
    && Ends(s.core, s.made, s.frees, s.book.dropped) && (!s.made ==> OnlySenders(s.handles))
  }

  // ---- copies ----

  predicate Has(q: seq<Message>, id: nat) { exists i :: 0 <= i < |q| && q[i].copy == id }

  ghost predicate SlotsOwn(q: seq<Message>, owner: map<nat, Owner>) {
    && (forall i, j :: 0 <= i < j < |q| ==> q[i].copy != q[j].copy)
    && (forall i :: 0 <= i < |q| ==> q[i].copy in owner && owner[q[i].copy] == InSlot)
    && (forall id :: id in owner && owner[id] == InSlot ==> Has(q, id))
  }

  ghost predicate CallsOwn(cs: map<nat, Call>, owner: map<nat, Owner>) {
    && (forall t :: t in cs && Held(cs[t]).Some? ==>
          Held(cs[t]).value in owner && owner[Held(cs[t]).value] == WithCall(t))
    && (forall id :: id in owner && owner[id].WithCall? ==> owner[id].t in cs && Held(cs[owner[id].t]) == Some(id))
  }

  ghost predicate FreedOnce(b: Book) {
    forall id :: b.freed[id] == One(id in b.owner && b.owner[id] == Freed)
  }

  ghost predicate Kept(q: seq<Message>, b: Book) {
    SlotsOwn(q, b.owner) && FreedOnce(b) && b.accepted == b.received + b.dropped + q
  }

  ghost predicate Copies(q: seq<Message>, cs: map<nat, Call>, b: Book) { Kept(q, b) && CallsOwn(cs, b.owner) }

  // ---- what sends return ----

  /** Passes and copies of a send under way; `n` is how many sends its thread has finished. */
  predicate CallOk(c: Call, maxMessage: nat, n: nat) {
    c.Send? ==>
      && |c.data| <= maxMessage && c.number == n
      && (c.pc.SendAsleep? || c.pc.SendWoken? ==> c.block)
      && c.copies == (if Held(c).Some? then 1 else 0)
      && c.passes == if Held(c).Some? && !c.pc.SendRelock? then 2 else 1
  }

  predicate OutcomeOk(o: Outcome, maxMessage: nat) {
    && o.passes <= 2 && o.copies <= 1
    && (o.code == 0 ==> o.copies == 1)
    && (o.code == 3 ==> |o.data| > maxMessage)
    && (|o.data| > maxMessage ==> o.copies == 0 && (o.code == 2 || o.code == 3))
    && (o.block ==> o.code == 0 || o.code == 2 || o.code == 3)
  }

  ghost predicate CallsOk(cs: map<nat, Call>, log: map<nat, seq<Outcome>>, maxMessage: nat) {
    forall t :: t in cs ==> CallOk(cs[t], maxMessage, |LogOf(log, t)|)
  }

  ghost predicate LogOk(log: map<nat, seq<Outcome>>, maxMessage: nat) {
    forall t, n :: t in log && 0 <= n < |log[t]| ==> OutcomeOk(log[t][n], maxMessage)
  }

  /** The message that send number `n` of thread `t` put into the channel. */
  predicate SentBy(m: Message, t: nat, n: nat) { m.sender == t && m.number == n }

  ghost predicate Recorded(log: map<nat, seq<Outcome>>, accepted: seq<Message>) {
    && (forall i :: 0 <= i < |accepted| ==>
          var m, o := accepted[i], LogOf(log, accepted[i].sender);
          m.number < |o| && o[m.number].code == 0 && o[m.number].data == m.data)
    && (forall i, j :: 0 <= i < j < |accepted| && accepted[i].sender == accepted[j].sender ==>
          accepted[i].number < accepted[j].number)
    && (forall t, n :: t in log && 0 <= n < |log[t]| && log[t][n].code == 0 ==>
          exists i :: 0 <= i < |accepted| && SentBy(accepted[i], t, n))
  }

  ghost predicate Logged(cs: map<nat, Call>, log: map<nat, seq<Outcome>>, accepted: seq<Message>, maxMessage: nat) {
    CallsOk(cs, log, maxMessage) && LogOk(log, maxMessage) && Recorded(log, accepted)
  }

  // ---- wake-ups ----

  ghost predicate SleepersOpen(s: State) {
    && (Count(s.calls, RecvSleeps) > 0 ==> !s.core.closed)
    && (Count(s.calls, SendSleeps) > 0 ==> s.core.IsOpen())
  }

  ghost predicate ReadersConserved(s: State) {
    Count(s.calls, RecvSleeps) > 0 ==> Count(s.calls, RecvIsWoken) >= |s.core.queue|
  }

  ghost predicate WritersServed(s: State) {
    Count(s.calls, SendSleeps) > 0 ==> s.core.queue != [] || Count(s.calls, InFlight) > 0
  }

  ghost predicate Wakeups(s: State) {
    && SleepersOpen(s) && ReadersConserved(s)
    && (s.core.maxMessage <= s.core.maxQueued ==> WritersServed(s))
  }

  ghost predicate Inv(s: State) {
    && Sound(s) && Opened(s.core, s.made, s.shut)
    && Copies(s.core.queue, s.calls, s.book)
    && Logged(s.calls, s.log, s.book.accepted, s.core.maxMessage)
    && (!s.faulted ==> Wakeups(s))
  }

  // ---- how the counts move ----

  lemma CallMoves(cs: map<nat, Call>, t: nat, v: Call)
    ensures Count(cs[t := v], SendSleeps) == Count(cs, SendSleeps) - Here(cs, t, SendSleeps) + One(SendSleeps(v))
    ensures Count(cs[t := v], RecvSleeps) == Count(cs, RecvSleeps) - Here(cs, t, RecvSleeps) + One(RecvSleeps(v))
    ensures Count(cs[t := v], RecvIsWoken) == Count(cs, RecvIsWoken) - Here(cs, t, RecvIsWoken) + One(RecvIsWoken(v))
    ensures Count(cs[t := v], InFlight) == Count(cs, InFlight) - Here(cs, t, InFlight) + One(InFlight(v))
  {
    CountPut(cs, t, v, SendSleeps);
    CountPut(cs, t, v, RecvSleeps);
    CountPut(cs, t, v, RecvIsWoken);
    CountPut(cs, t, v, InFlight);
  }

  lemma CallEnds(cs: map<nat, Call>, t: nat)
    ensures Count(cs - {t}, SendSleeps) == Count(cs, SendSleeps) - Here(cs, t, SendSleeps)
    ensures Count(cs - {t}, RecvSleeps) == Count(cs, RecvSleeps) - Here(cs, t, RecvSleeps)
    ensures Count(cs - {t}, RecvIsWoken) == Count(cs, RecvIsWoken) - Here(cs, t, RecvIsWoken)
    ensures Count(cs - {t}, InFlight) == Count(cs, InFlight) - Here(cs, t, InFlight)
  {
    CountDrop(cs, t, SendSleeps);
    CountDrop(cs, t, RecvSleeps);
    CountDrop(cs, t, RecvIsWoken);
    CountDrop(cs, t, InFlight);
  }

  predicate NoCall(c: Call) { false }

  /** A full broadcast leaves nobody asleep. */
  lemma AllWake(cs: map<nat, Call>)
    ensures Count(Woken(cs, true, true), SendSleeps) == 0 && Count(Woken(cs, true, true), RecvSleeps) == 0
  {
    assert At(cs, NoCall) == {};
    var cs1 := Each(cs, WakeRecv);
    CountEach(cs, WakeRecv, NoCall, RecvSleeps);
    CountEach(cs1, WakeSend, RecvSleeps, RecvSleeps);
    assert At(cs1, NoCall) == {};
    CountEach(cs1, WakeSend, NoCall, SendSleeps);
  }
}
