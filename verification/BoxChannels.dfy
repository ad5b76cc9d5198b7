/**
  The generic channel as a protocol: any number of calls through any number of handles, with the
  ownership of every payload box followed from its sender to whoever has to release it.
 */
module BoxChannels {
  import opened Threads
  import opened BoxCores
  import opened Endpoints

  datatype CallPc = SendAsleep(box: Box) | SendWoken(box: Box) | RecvAsleep | RecvWoken

  datatype Call = Call(handle: nat, pc: CallPc)

  datatype Owner =
    | InCall(c: nat)
    | InSlot
    | GivenBack   // the send returned the box to its caller
    | Delivered   // a receive returned it
    | Destroyed   // released with the core

  /** What a send of `box` has returned and left in the result cell. */
  datatype Outcome = Outcome(box: Box, back: Option<Box>, code: nat)

  datatype Book = Book(owner: map<Box, Owner>, log: multiset<Outcome>, released: multiset<Box>,
                       accepted: seq<Box>, received: seq<Box>, dropped: seq<Box>)
  {
    function Waits(b: Box, c: nat): Book { this.(owner := owner[b := InCall(c)]) }
    function Enters(b: Box): Book { this.(owner := owner[b := InSlot], accepted := accepted + [b]) }
    function StaysOut(b: Box): Book { this.(owner := owner[b := GivenBack]) }
    function Leaves(b: Box): Book { this.(owner := owner[b := Delivered], received := received + [b]) }
    function Logs(o: Outcome): Book { this.(log := log + multiset{o}) }
  }

  datatype State = State(
    core: Core, refs: int, frees: nat, made: bool,
    calls: map<nat, Call>, handles: map<nat, Handle>, book: Book,
    ended: nat, empties: nat,  // receives that reported the end, or an empty queue
    shut: bool,                // a sender or the receiver has called close
    faulted: bool)

  function Create(capacity: nat): State {
    State(Core(capacity, [], 1, false, false), 1, 0, false,
          map[], map[0 := Handle(Sender, Open)], Book(map[], multiset{}, multiset{}, [], [], []), 0, 0, false, false)
  }

  predicate SendSleeps(c: Call) { c.pc.SendAsleep? }
  predicate SendIsWoken(c: Call) { c.pc.SendWoken? }
  predicate RecvSleeps(c: Call) { c.pc.RecvAsleep? }
  predicate RecvIsWoken(c: Call) { c.pc.RecvWoken? }
  predicate Sends(c: Call) { c.pc.SendAsleep? || c.pc.SendWoken? }

  function WakeSend(c: Call): Call { if c.pc.SendAsleep? then c.(pc := SendWoken(c.pc.box)) else c }
  function WakeRecv(c: Call): Call { if c.pc.RecvAsleep? then c.(pc := RecvWoken) else c }

  /** A signal wakes the call `wake`; `None` when nobody was woken. */
  function Signal(cs: map<nat, Call>, wake: Option<nat>): map<nat, Call> {
    if wake.Some? && wake.value in cs then cs[wake.value := WakeRecv(WakeSend(cs[wake.value]))] else cs
  }

  ghost predicate Signals(s: State, wake: Option<nat>, sleeps: Call -> bool) {
    wake.Some? ==> wake.value in s.calls && sleeps(s.calls[wake.value])
  }

  datatype CallStep =
    | Send(h: nat, box: Box, block: bool, wake: Option<nat>)
    | SendFails(h: nat, box: Box)                // injected error or failed lock
    | SendRetry(wake: Option<nat>)
    | Recv(h: nat, block: bool, wake: Option<nat>)
    | RecvRetry(wake: Option<nat>)
    | Spurious
    | WaitError

  datatype HandleStep =
    | MakeReceiver(h2: nat) | ShareSender(h2: nat)
    | Close(readersWoken: bool, writersWoken: bool)
    | DropLock | DropRelease

  datatype Event = ByCall(c: nat, call: CallStep) | ByHandle(h: nat, handle: HandleStep)

  ghost predicate OpenHandle(s: State, h: nat, role: Role) {
    h in s.handles && s.handles[h] == Handle(role, Open)
  }

  ghost predicate CallEnabled(s: State, c: nat, e: CallStep) {
    match e
    case Send(h, box, _, wake) =>
      c !in s.calls && OpenHandle(s, h, Sender) && box !in s.book.owner && Signals(s, wake, RecvSleeps)
    case SendFails(h, box) => c !in s.calls && OpenHandle(s, h, Sender) && box !in s.book.owner
    case SendRetry(wake) => c in s.calls && s.calls[c].pc.SendWoken? && Signals(s, wake, RecvSleeps)
    case Recv(h, _, wake) => c !in s.calls && OpenHandle(s, h, Receiver) && Signals(s, wake, SendSleeps)
    case RecvRetry(wake) => c in s.calls && s.calls[c].pc.RecvWoken? && Signals(s, wake, SendSleeps)
    case Spurious => c in s.calls && (SendSleeps(s.calls[c]) || RecvSleeps(s.calls[c]))
    case WaitError => c in s.calls && (SendIsWoken(s.calls[c]) || RecvIsWoken(s.calls[c]))
  }

  /** The box is in the ring and readable has been signalled. */
  ghost function Entered(s: State, box: Box, wake: Option<nat>): State {
    s.(core := s.core.(queue := s.core.queue + [box]), book := s.book.Enters(box),
       calls := Signal(s.calls, wake),
       faulted := s.faulted || (wake.None? && Count(s.calls, RecvSleeps) > 0))
  }

  /** The box does not get into the ring. */
  ghost function StaysOut(s: State, box: Box): State { s.(book := s.book.StaysOut(box)) }

  /** The send of `box` by the call `c`, new or woken, returns `back` with the result `code`. */
  ghost function Returned(s: State, c: nat, box: Box, back: Option<Box>, code: nat): State {
    s.(calls := s.calls - {c}, book := s.book.Logs(Outcome(box, back, code)))
  }

  ghost function SendPass(s: State, c: nat, h: nat, box: Box, block: bool, wake: Option<nat>): State {
    match Judge(s.core, block)
    case Wait => s.(calls := s.calls[c := Call(h, SendAsleep(box))], book := s.book.Waits(box, c))
    case Enter => Returned(Entered(s, box, wake), c, box, HandedBack(Enter, box), Code(Enter))
    case v => Returned(StaysOut(s, box), c, box, HandedBack(v, box), Code(v))
  }

  ghost function Popped(s: State, c: nat, wake: Option<nat>): State
    requires s.core.queue != []
  {
    s.(core := s.core.(queue := s.core.queue[1..]), book := s.book.Leaves(s.core.queue[0]),
       calls := Signal(s.calls, wake) - {c},
       faulted := s.faulted || (wake.None? && Count(s.calls, SendSleeps) > 0))
  }

  ghost function RecvPass(s: State, c: nat, h: nat, block: bool, wake: Option<nat>): State {
    match Receive(s.core, block)
    case Got(_) => Popped(s, c, wake)
    case Sleep => s.(calls := s.calls[c := Call(h, RecvAsleep)])
    case Ended => s.(calls := s.calls - {c}, ended := s.ended + 1)
    case Empty => s.(calls := s.calls - {c}, empties := s.empties + 1)
  }

  ghost function CallApply(s: State, c: nat, e: CallStep): State
    requires CallEnabled(s, c, e)
  {
    match e
    case Send(h, box, block, wake) => SendPass(s, c, h, box, block, wake)
    case SendFails(_, box) => Returned(StaysOut(s, box), c, box, Some(box), 2)
    case SendRetry(wake) => SendPass(s, c, s.calls[c].handle, s.calls[c].pc.box, true, wake)
    case Recv(h, block, wake) => RecvPass(s, c, h, block, wake)
    case RecvRetry(wake) => RecvPass(s, c, s.calls[c].handle, true, wake)
    case Spurious => s.(calls := s.calls[c := WakeRecv(WakeSend(s.calls[c]))])
    case WaitError =>
      var s1 := s.(faulted := true);
      if Sends(s.calls[c]) then
        var box := s.calls[c].pc.box;
        Returned(StaysOut(s1, box), c, box, Some(box), 2)
      else s1.(calls := s.calls - {c})
  }

  function Woken(cs: map<nat, Call>, readers: bool, writers: bool): map<nat, Call> {
    var cs1 := if readers then Each(cs, WakeRecv) else cs;
    if writers then Each(cs1, WakeSend) else cs1
  }

  ghost function Swept(owner: map<Box, Owner>): map<Box, Owner> {
    map b | b in owner :: if owner[b] == InSlot then Destroyed else owner[b]
  }

  ghost function SweptBook(q: seq<Box>, b: Book): Book {
    b.(owner := Swept(b.owner), released := b.released + multiset(q), dropped := b.dropped + q)
  }

  /** `sync_channel_core_release` */
  ghost function Unref(s: State): State {
    if s.refs != 1 then s.(refs := s.refs - 1)
    else s.(refs := 0, frees := s.frees + 1, core := s.core.(queue := []), book := SweptBook(s.core.queue, s.book))
  }

  ghost predicate HandleEnabled(s: State, h: nat, e: HandleStep) {
    h in s.handles &&
    match e
    case MakeReceiver(h2) => IsOpenSender(s.handles[h]) && !s.made && h2 !in s.handles
    case ShareSender(h2) => IsOpenSender(s.handles[h]) && h2 !in s.handles
    case Close(_, _) => s.handles[h].pc.Open?
    case DropLock => s.handles[h].pc.Open? && forall c :: c in s.calls ==> s.calls[c].handle != h
    case DropRelease => s.handles[h].pc.Dropping?
  }

  ghost function HandleApply(s: State, h: nat, e: HandleStep): State
    requires HandleEnabled(s, h, e)
  {
    match e
    case MakeReceiver(h2) =>
      s.(core := s.core.(receiverAlive := true), refs := s.refs + 1, made := true,
         handles := s.handles[h2 := Handle(Receiver, Open)])
    case ShareSender(h2) =>
      s.(core := s.core.(senders := s.core.senders + 1), refs := s.refs + 1,
         handles := s.handles[h2 := Handle(Sender, Open)])
    case Close(readersWoken, writersWoken) =>
      s.(core := s.core.(closed := true, receiverAlive := s.core.receiverAlive && s.handles[h].role.Sender?),
         calls := Woken(s.calls, readersWoken, writersWoken), shut := true,
         faulted := s.faulted || !readersWoken || !writersWoken)
    case DropLock =>
      var core := if s.handles[h].role.Sender? then s.core.SenderGone() else s.core.ReceiverGone();
      var wakes := if s.handles[h].role.Sender? then core.senders == 0 else s.core.receiverAlive;
      s.(core := core, handles := s.handles[h := s.handles[h].(pc := Dropping)],
         calls := if wakes then Woken(s.calls, true, true) else s.calls)
    case DropRelease => Unref(s.(handles := s.handles[h := s.handles[h].(pc := Released)]))
  }

  ghost predicate Enabled(s: State, e: Event) {
    match e
    case ByCall(c, step) => CallEnabled(s, c, step)
    case ByHandle(h, step) => HandleEnabled(s, h, step)
  }

  ghost function Apply(s: State, e: Event): State
    requires Enabled(s, e)
  {
    match e
    case ByCall(c, step) => CallApply(s, c, step)
    case ByHandle(h, step) => HandleApply(s, h, step)
  }

  ghost predicate Possible(s: State, es: seq<Event>)
    decreases |es|
  {
    es == [] || (Enabled(s, es[0]) && Possible(Apply(s, es[0]), es[1..]))
  }

  ghost function After(s: State, es: seq<Event>): State
    requires Possible(s, es)
    decreases |es|
  {
    if es == [] then s else After(Apply(s, es[0]), es[1..])
  }

  // ---- invariant ----

  predicate RightRole(c: Call, h: Handle) { h.pc.Open? && h.role.Sender? == Sends(c) }

  ghost predicate CallsOpen(cs: map<nat, Call>, hs: map<nat, Handle>) {
    forall c :: c in cs ==> cs[c].handle in hs && RightRole(cs[c], hs[cs[c].handle])
  }

  ghost predicate Counters(senders: int, refs: int, frees: nat, hs: map<nat, Handle>) {
    && senders == Count(hs, IsOpenSender)
    && refs == Count(hs, HoldsRef)
    && frees == One(refs == 0)
  }

  predicate Ends(core: Core, made: bool, frees: nat, dropped: seq<Box>) {
    && 0 < core.capacity && |core.queue| <= core.capacity
    && (core.senders == 0 ==> core.closed)
    && (made && !core.receiverAlive ==> core.closed)
    && (frees == 0 ==> dropped == [])
    && (frees != 0 ==> core.queue == [])
  }

  /** A channel is open as long as nobody has closed it, a sender is left and the receiver is not gone. */
  predicate Opened(core: Core, made: bool, shut: bool) {
    core.closed <==> shut || core.senders == 0 || (made && !core.receiverAlive)
  }

  ghost predicate OnlySenders(hs: map<nat, Handle>) { forall h :: h in hs ==> hs[h].role.Sender? }

  ghost predicate Sound(s: State) {
    && CallsOpen(s.calls, s.handles) && Counters(s.core.senders, s.refs, s.frees, s.handles)
    && Ends(s.core, s.made, s.frees, s.book.dropped) && (!s.made ==> OnlySenders(s.handles))
  }

  /** `xs` holds exactly the boxes owned by `o`, each once. */
  ghost predicate Placed(xs: seq<Box>, owner: map<Box, Owner>, o: Owner) {
    forall x :: multiset(xs)[x] == One(x in owner && owner[x] == o)
  }

  ghost predicate CallsOwn(cs: map<nat, Call>, owner: map<Box, Owner>) {
    && (forall c :: c in cs && Sends(cs[c]) ==> cs[c].pc.box in owner && owner[cs[c].pc.box] == InCall(c))
    && (forall b :: b in owner && owner[b].InCall? ==>
          owner[b].c in cs && Sends(cs[owner[b].c]) && cs[owner[b].c].pc.box == b)
  }

  predicate WasAccepted(o: Owner) { o.InSlot? || o.Delivered? || o.Destroyed? }

  /** NULL with result 0, or the box itself with result 1 or 2. */
  predicate Good(o: Outcome) {
    if o.back == None then o.code == 0 else o.back == Some(o.box) && (o.code == 1 || o.code == 2)
  }

  /** How often a send of the box has given it back. */
  function Backs(log: multiset<Outcome>, b: Box): nat {
    log[Outcome(b, Some(b), 1)] + log[Outcome(b, Some(b), 2)]
  }

  /** A send of a box has returned NULL, or the box itself, once and only for the right owners. */
  ghost predicate Logged(owner: map<Box, Owner>, log: multiset<Outcome>) {
    && (forall o :: o in log ==> Good(o))
    && (forall x :: log[Outcome(x, None, 0)] == One(x in owner && WasAccepted(owner[x])))
    && (forall x :: Backs(log, x) == One(x in owner && owner[x] == GivenBack))
  }

  ghost predicate Kept(q: seq<Box>, b: Book) {
    && Placed(q, b.owner, InSlot) && Placed(b.received, b.owner, Delivered) && Placed(b.dropped, b.owner, Destroyed)
    && Logged(b.owner, b.log)
    && b.released == multiset(b.dropped) && b.accepted == b.received + b.dropped + q
  }

  ghost predicate Boxes(q: seq<Box>, cs: map<nat, Call>, b: Book) { Kept(q, b) && CallsOwn(cs, b.owner) }

  /** Sleeping senders and receivers only while enough others are on their way. */
  ghost predicate Conserved(s: State) {
    && (Count(s.calls, SendSleeps) > 0 ==>
          s.core.IsOpen() && Count(s.calls, SendIsWoken) >= s.core.capacity - |s.core.queue|)
    && (Count(s.calls, RecvSleeps) > 0 ==>
          !s.core.closed && Count(s.calls, RecvIsWoken) >= |s.core.queue|)
  }

  ghost predicate Inv(s: State) {
    && Sound(s) && Opened(s.core, s.made, s.shut) && Boxes(s.core.queue, s.calls, s.book)
    && (!s.faulted ==> Conserved(s))
  }
}
