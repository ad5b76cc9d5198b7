/**
  The owned-bytes channel as a protocol: any number of threads that send and receive through any
  number of handles, interleaved one critical section or one unlocked action at a time.
 */
module BytesChannels {
  import opened Threads
  import opened BytesCores
  import opened Endpoints

  datatype Call =
    | Send(handle: nat, number: nat, data: Bytes, block: bool, passes: nat, copies: nat, pc: SendPc)
    | Recv(handle: nat, at: RecvPc)

  datatype SendPc =
    | SendAsleep(held: Option<nat>)  // waiting on writable, perhaps with its copy already made
    | SendWoken(held: Option<nat>)
    | SendCopying                    // unlocked, about to copy the payload
    | SendRelock(copy: nat)          // copied, about to lock again

  datatype RecvPc = RecvAsleep | RecvWoken | RecvOut(m: Message)  // unlocked, turning the copy into Bytes

  /** Who has to free a native copy. */
  datatype Owner = WithCall(t: nat) | InSlot | Freed

  /** A send that has returned. */
  datatype Outcome = Outcome(data: Bytes, block: bool, code: nat, passes: nat, copies: nat)

  /** The history of the copies and of the messages. */
  datatype Book = Book(owner: map<nat, Owner>, freed: multiset<nat>,
                       accepted: seq<Message>, received: seq<Message>, dropped: seq<Message>)
  {
    function Copies(id: nat, t: nat): Book { this.(owner := owner[id := WithCall(t)]) }
    function Enters(m: Message): Book { this.(owner := owner[m.copy := InSlot], accepted := accepted + [m]) }
    function Leaves(m: Message, t: nat): Book {
      this.(owner := owner[m.copy := WithCall(t)], received := received + [m])
    }
    function Frees(id: nat): Book { this.(owner := owner[id := Freed], freed := freed + multiset{id}) }
  }

  datatype State = State(
    core: Core, refs: int, frees: nat, made: bool,  // made: the receiver handle has been created
    calls: map<nat, Call>, handles: map<nat, Handle>, book: Book,
    log: map<nat, seq<Outcome>>,  // what each thread's sends returned, in program order
    ended: nat, empties: nat,     // receives that reported the end, or an empty queue
    shut: bool,                   // a sender or the receiver has called close
    faulted: bool)  // some signal, broadcast, wait or second lock has failed without ending the process

  function LogOf(log: map<nat, seq<Outcome>>, t: nat): seq<Outcome> {
    if t in log then log[t] else []
  }

  /** `sync_owned_bytes_channel_new` with its first sender handle. */
  function Create(capacity: nat, maxMessage: nat, maxQueued: nat): State {
    State(Core(capacity, maxMessage, maxQueued, [], 0, 1, false, false), 1, 0, false,
          map[], map[0 := Handle(Sender, Open)], Book(map[], multiset{}, [], [], []), map[], 0, 0, false, false)
  }

  // ---- condition variables ----

  predicate SendSleeps(c: Call) { c.Send? && c.pc.SendAsleep? }
  predicate RecvSleeps(c: Call) { c.Recv? && c.at.RecvAsleep? }
  predicate RecvIsWoken(c: Call) { c.Recv? && c.at.RecvWoken? }
  /** Awake and bound to look at the queue again before it returns. */
  predicate InFlight(c: Call) { c.Send? && !c.pc.SendAsleep? }

  function WakeSend(c: Call): Call { if SendSleeps(c) then c.(pc := SendWoken(c.pc.held)) else c }
  function WakeRecv(c: Call): Call { if RecvSleeps(c) then c.(at := RecvWoken) else c }

  function SignalRecv(cs: map<nat, Call>, wake: Option<nat>): map<nat, Call> {
    if wake.Some? && wake.value in cs then cs[wake.value := WakeRecv(cs[wake.value])] else cs
  }

  function SignalSend(cs: map<nat, Call>, wake: Option<nat>): map<nat, Call> {
    if wake.Some? && wake.value in cs then cs[wake.value := WakeSend(cs[wake.value])] else cs
  }

  ghost predicate RecvSignal(s: State, wake: Option<nat>) {
    wake.Some? ==> wake.value in s.calls && RecvSleeps(s.calls[wake.value])
  }

  ghost predicate SendSignal(s: State, wake: Option<nat>) {
    wake.Some? ==> wake.value in s.calls && SendSleeps(s.calls[wake.value])
  }

  // ---- steps ----

  datatype SendStep =
    | SendStart(h: nat, data: Bytes, block: bool)
    | SendFails(h: nat, data: Bytes, block: bool)  // injected error or failed first lock
    | SendRecheck(wake: Option<nat>)
    | SendCopy(id: nat)
    | SendLock(wake: Option<nat>)
    | SendSpurious
    | SendError                                    // a failed unlock, wait or second lock

  datatype RecvStep =
    | RecvStart(h: nat, block: bool, wake: Option<nat>)
    | RecvRecheck(wake: Option<nat>)
    | RecvSpurious
    | RecvError
    | RecvFinish

  datatype HandleStep =
    | MakeReceiver(h2: nat) | ShareSender(h2: nat)
    | Close(readersWoken: bool, writersWoken: bool)
    | DropLock | DropRelease

  datatype Event =
    | BySend(t: nat, send: SendStep)
    | ByRecv(t: nat, recv: RecvStep)
    | ByHandle(h: nat, handle: HandleStep)

  ghost predicate OpenHandle(s: State, h: nat, role: Role) {
    h in s.handles && s.handles[h] == Handle(role, Open)
  }

  /** The call of `t` returns `code`. */
  function Returned(s: State, t: nat, call: Call, code: nat): State
    requires call.Send?
  {
    s.(calls := s.calls - {t},
       log := s.log[t := LogOf(s.log, t) + [Outcome(call.data, call.block, code, call.passes, call.copies)]])
  }

  /** A pass of submit without a copy: it returns, sleeps, or unlocks to make one. */
  ghost function FirstPass(s: State, t: nat, call: Call): State
    requires call.Send?
  {
    match Judge(s.core, |call.data|, call.block)
    case Fits => s.(calls := s.calls[t := call.(pc := SendCopying)])
    case Wait => s.(calls := s.calls[t := call.(pc := SendAsleep(None))])
    case v => Returned(s, t, call, Code(v))
  }

  /** The copy `id` enters the ring, readable is signalled, and the send returns 0. */
  ghost function Entered(s: State, t: nat, call: Call, id: nat, wake: Option<nat>): State
    requires call.Send?
  {
    var m := Message(call.data, id, t, call.number);
    Returned(s.(core := s.core.Pushed(m), book := s.book.Enters(m), calls := SignalRecv(s.calls, wake),
                faulted := s.faulted || (wake.None? && Count(s.calls, RecvSleeps) > 0)), t, call, Code(Fits))
  }

  /** A pass of submit with the copy `id`: it enqueues it, sleeps on, or frees it and returns. */
  ghost function SecondPass(s: State, t: nat, call: Call, id: nat, wake: Option<nat>): State
    requires call.Send?
  {
    match Judge(s.core, |call.data|, call.block)
    case Fits => Entered(s, t, call, id, wake)
    case Wait => s.(calls := s.calls[t := call.(pc := SendAsleep(Some(id)))])
    case v => Returned(s.(book := s.book.Frees(id)), t, call, Code(v))
  }

  /** The native copy a call holds, if any. */
  function Held(c: Call): Option<nat> {
    match c
    case Send(_, _, _, _, _, _, pc) => (
      match pc
      case SendAsleep(held) => held
      case SendWoken(held) => held
      case SendCopying => None
      case SendRelock(copy) => Some(copy))
    case Recv(_, at) => if at.RecvOut? then Some(at.m.copy) else None
  }

  ghost predicate SendEnabled(s: State, t: nat, e: SendStep) {
    match e
    case SendStart(h, _, _) => t !in s.calls && OpenHandle(s, h, Sender)
    case SendFails(h, _, _) => t !in s.calls && OpenHandle(s, h, Sender)
    case SendRecheck(wake) =>
      && t in s.calls && s.calls[t].Send? && s.calls[t].pc.SendWoken? && RecvSignal(s, wake)
    case SendCopy(id) => t in s.calls && s.calls[t].Send? && s.calls[t].pc.SendCopying? && id !in s.book.owner
    case SendLock(wake) =>
      && t in s.calls && s.calls[t].Send? && s.calls[t].pc.SendRelock? && RecvSignal(s, wake)
    case SendSpurious => t in s.calls && SendSleeps(s.calls[t])
    case SendError => t in s.calls && s.calls[t].Send? && !s.calls[t].pc.SendAsleep?
  }

  ghost function SendApply(s: State, t: nat, e: SendStep): State
    requires SendEnabled(s, t, e)
  {
    match e
    case SendStart(h, data, block) =>
      FirstPass(s, t, Send(h, |LogOf(s.log, t)|, data, block, 1, 0, SendCopying))
    case SendFails(h, data, block) =>
      Returned(s, t, Send(h, |LogOf(s.log, t)|, data, block, 0, 0, SendCopying), 2)
    case SendRecheck(wake) =>
      if s.calls[t].pc.held.None? then FirstPass(s, t, s.calls[t])
      else SecondPass(s, t, s.calls[t], s.calls[t].pc.held.value, wake)
    case SendCopy(id) =>
      s.(calls := s.calls[t := s.calls[t].(copies := s.calls[t].copies + 1, pc := SendRelock(id))],
         book := s.book.Copies(id, t))
    case SendLock(wake) =>
      SecondPass(s, t, s.calls[t].(passes := s.calls[t].passes + 1), s.calls[t].pc.copy, wake)
    case SendSpurious => s.(calls := s.calls[t := WakeSend(s.calls[t])])
    case SendError =>
      var held := Held(s.calls[t]);
      Returned(s.(book := if held.Some? then s.book.Frees(held.value) else s.book, faulted := true), t, s.calls[t], 2)
  }

  /** The oldest message leaves the ring and writable is signalled. */
  ghost function Popped(s: State, t: nat, h: nat, wake: Option<nat>): State
    requires s.core.queue != []
  {
    var m := s.core.queue[0];
    var cs := SignalSend(s.calls, wake);
    s.(core := s.core.Popped(), calls := cs[t := Recv(h, RecvOut(m))], book := s.book.Leaves(m, t),
       faulted := s.faulted || (wake.None? && Count(s.calls, SendSleeps) > 0))
  }

  /** A pass of receive. */
  ghost function RecvPass(s: State, t: nat, h: nat, block: bool, wake: Option<nat>): State {
    match Receive(s.core, block)
    case Got(_) => Popped(s, t, h, wake)
    case Sleep => s.(calls := s.calls[t := Recv(h, RecvAsleep)])
    case Ended => s.(calls := s.calls - {t}, ended := s.ended + 1)
    case Empty => s.(calls := s.calls - {t}, empties := s.empties + 1)
  }

  ghost predicate RecvEnabled(s: State, t: nat, e: RecvStep) {
    match e
    case RecvStart(h, _, wake) => t !in s.calls && OpenHandle(s, h, Receiver) && SendSignal(s, wake)
    case RecvRecheck(wake) => t in s.calls && RecvIsWoken(s.calls[t]) && SendSignal(s, wake)
    case RecvSpurious => t in s.calls && RecvSleeps(s.calls[t])
    case RecvError => t in s.calls && RecvIsWoken(s.calls[t])
    case RecvFinish => t in s.calls && s.calls[t].Recv? && s.calls[t].at.RecvOut?
  }

  ghost function RecvApply(s: State, t: nat, e: RecvStep): State
    requires RecvEnabled(s, t, e)
  {
    match e
    case RecvStart(h, block, wake) => RecvPass(s, t, h, block, wake)
    case RecvRecheck(wake) => RecvPass(s, t, s.calls[t].handle, true, wake)
    case RecvSpurious => s.(calls := s.calls[t := WakeRecv(s.calls[t])])
    case RecvError => s.(calls := s.calls - {t}, faulted := true)
    case RecvFinish => s.(calls := s.calls - {t}, book := s.book.Frees(s.calls[t].at.m.copy))
  }

  // ---- handles ----

  function Woken(cs: map<nat, Call>, readers: bool, writers: bool): map<nat, Call> {
    var cs1 := if readers then Each(cs, WakeRecv) else cs;
    if writers then Each(cs1, WakeSend) else cs1
  }

  function CopiesOf(q: seq<Message>): (r: seq<nat>)
    ensures |r| == |q| && forall i :: 0 <= i < |q| ==> r[i] == q[i].copy
  {
    if q == [] then [] else [q[0].copy] + CopiesOf(q[1..])
  }

  ghost function Swept(owner: map<nat, Owner>): map<nat, Owner> {
    map id | id in owner :: if owner[id] == InSlot then Freed else owner[id]
  }

  /** The books after the copies still in the slots have been freed. */
  ghost function SweptBook(q: seq<Message>, b: Book): Book {
    b.(owner := Swept(b.owner), freed := b.freed + multiset(CopiesOf(q)), dropped := b.dropped + q)
  }

  /** `sync_owned_bytes_core_release`: the last reference frees what the slots still hold. */
  ghost function Unref(s: State): State {
    if s.refs != 1 then s.(refs := s.refs - 1)
    else s.(refs := 0, frees := s.frees + 1, core := s.core.(queue := [], queuedBytes := 0),
            book := SweptBook(s.core.queue, s.book))
  }

  ghost predicate HandleEnabled(s: State, h: nat, e: HandleStep) {
    h in s.handles &&
    match e
    case MakeReceiver(h2) => IsOpenSender(s.handles[h]) && !s.made && h2 !in s.handles
    case ShareSender(h2) => IsOpenSender(s.handles[h]) && h2 !in s.handles
    case Close(_, _) => s.handles[h].pc.Open?
    case DropLock => s.handles[h].pc.Open? && forall t :: t in s.calls ==> s.calls[t].handle != h
    case DropRelease => s.handles[h].pc.Dropping?
  }

  ghost function HandleApply(s: State, h: nat, e: HandleStep): State
    requires HandleEnabled(s, h, e)
  {
    match e
    case MakeReceiver(h2) =>
      s.(core := s.core.(receiverAlive := true), refs := s.refs + 1, made := true,
         handles := s.handles[h2 := Handle(Receiver, Open)])
    case ShareSender(h2) =>
      s.(core := s.core.(senders := s.core.senders + 1), refs := s.refs + 1,
         handles := s.handles[h2 := Handle(Sender, Open)])
    case Close(readersWoken, writersWoken) =>
      s.(core := s.core.(closed := true, receiverAlive := s.core.receiverAlive && s.handles[h].role.Sender?),
         calls := Woken(s.calls, readersWoken, writersWoken), shut := true,
         faulted := s.faulted || !readersWoken || !writersWoken)
    case DropLock =>
      var core := if s.handles[h].role.Sender? then s.core.SenderGone() else s.core.ReceiverGone();
      var wakes := if s.handles[h].role.Sender? then core.senders == 0 else s.core.receiverAlive;
      s.(core := core, handles := s.handles[h := s.handles[h].(pc := Dropping)],
         calls := if wakes then Woken(s.calls, true, true) else s.calls)
    case DropRelease => Unref(s.(handles := s.handles[h := s.handles[h].(pc := Released)]))
  }

  ghost predicate Enabled(s: State, e: Event) {
    match e
    case BySend(t, step) => SendEnabled(s, t, step)
    case ByRecv(t, step) => RecvEnabled(s, t, step)
    case ByHandle(h, step) => HandleEnabled(s, h, step)
  }

  ghost function Apply(s: State, e: Event): State
    requires Enabled(s, e)
  {
    match e
    case BySend(t, step) => SendApply(s, t, step)
    case ByRecv(t, step) => RecvApply(s, t, step)
    case ByHandle(h, step) => HandleApply(s, h, step)
  }

  ghost predicate Possible(s: State, es: seq<Event>)
    decreases |es|
  {
    es == [] || (Enabled(s, es[0]) && Possible(Apply(s, es[0]), es[1..]))
  }

  ghost function After(s: State, es: seq<Event>): State
    requires Possible(s, es)
    decreases |es|
  {
    if es == [] then s else After(Apply(s, es[0]), es[1..])
  }
}
