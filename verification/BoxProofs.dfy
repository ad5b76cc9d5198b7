/** Every step of the generic channel keeps the invariant, and what that means over every run. */
module BoxProofs {
  import opened Threads
  import opened BoxCores
  import opened Endpoints
  import opened BoxChannels

  // ---- how the counts move ----

  lemma CallMoves(cs: map<nat, Call>, c: nat, v: Call)
    ensures Count(cs[c := v], SendSleeps) == Count(cs, SendSleeps) - Here(cs, c, SendSleeps) + One(SendSleeps(v))
    ensures Count(cs[c := v], SendIsWoken) == Count(cs, SendIsWoken) - Here(cs, c, SendIsWoken) + One(SendIsWoken(v))
    ensures Count(cs[c := v], RecvSleeps) == Count(cs, RecvSleeps) - Here(cs, c, RecvSleeps) + One(RecvSleeps(v))
    ensures Count(cs[c := v], RecvIsWoken) == Count(cs, RecvIsWoken) - Here(cs, c, RecvIsWoken) + One(RecvIsWoken(v))
  {
    CountPut(cs, c, v, SendSleeps);
    CountPut(cs, c, v, SendIsWoken);
    CountPut(cs, c, v, RecvSleeps);
    CountPut(cs, c, v, RecvIsWoken);
  }

  lemma CallEnds(cs: map<nat, Call>, c: nat)
    ensures Count(cs - {c}, SendSleeps) == Count(cs, SendSleeps) - Here(cs, c, SendSleeps)
    ensures Count(cs - {c}, SendIsWoken) == Count(cs, SendIsWoken) - Here(cs, c, SendIsWoken)
    ensures Count(cs - {c}, RecvSleeps) == Count(cs, RecvSleeps) - Here(cs, c, RecvSleeps)
    ensures Count(cs - {c}, RecvIsWoken) == Count(cs, RecvIsWoken) - Here(cs, c, RecvIsWoken)
  {
    CountDrop(cs, c, SendSleeps);
    CountDrop(cs, c, SendIsWoken);
    CountDrop(cs, c, RecvSleeps);
    CountDrop(cs, c, RecvIsWoken);
  }

  predicate NoCall(c: Call) { false }

  lemma AllWake(cs: map<nat, Call>)
    ensures Count(Woken(cs, true, true), SendSleeps) == 0 && Count(Woken(cs, true, true), RecvSleeps) == 0
  {
    var cs1 := Each(cs, WakeRecv);
    assert At(cs, NoCall) == {} && At(cs1, NoCall) == {};
    CountEach(cs, WakeRecv, NoCall, RecvSleeps);
    CountEach(cs1, WakeSend, RecvSleeps, RecvSleeps);
    CountEach(cs1, WakeSend, NoCall, SendSleeps);
  }

  // ---- boxes ----

  lemma PlacedFrame(xs: seq<Box>, owner: map<Box, Owner>, o: Owner, b: Box, now: Owner)
    requires Placed(xs, owner, o) && now != o && (b in owner ==> owner[b] != o)
    ensures Placed(xs, owner[b := now], o)
  {
  }

  lemma PlacedPush(xs: seq<Box>, owner: map<Box, Owner>, o: Owner, b: Box)
    requires Placed(xs, owner, o) && (b in owner ==> owner[b] != o)
    ensures Placed(xs + [b], owner[b := o], o)
  {
  }

  lemma PlacedPop(xs: seq<Box>, owner: map<Box, Owner>, o: Owner, now: Owner)
    requires Placed(xs, owner, o) && xs != [] && now != o
    ensures xs[0] in owner && owner[xs[0]] == o && Placed(xs[1..], owner[xs[0] := now], o)
  {
    assert xs == [xs[0]] + xs[1..];
    assert multiset(xs)[xs[0]] > 0;
  }

  lemma CallsLetGo(cs: map<nat, Call>, owner: map<Box, Owner>, c: nat, b: Box, o: Owner)
    requires CallsOwn(cs, owner) && !o.InCall?
    requires if c in cs then Sends(cs[c]) && cs[c].pc.box == b else b !in owner
    ensures CallsOwn(cs - {c}, owner[b := o])
  {
  }

  lemma CallHolds(cs: map<nat, Call>, owner: map<Box, Owner>, c: nat, v: Call)
    requires CallsOwn(cs, owner) && Sends(v) && (c !in cs || cs[c].pc == SendWoken(v.pc.box))
    requires c !in cs ==> v.pc.box !in owner
    ensures CallsOwn(cs[c := v], owner[v.pc.box := InCall(c)])
  {
  }

  // Calls come, go, sleep and wake without a box changing hands.

  lemma OwnSets(cs: map<nat, Call>, owner: map<Box, Owner>, c: nat, v: Call)
    requires CallsOwn(cs, owner) && Sends(v) == (c in cs && Sends(cs[c]))
    requires Sends(v) ==> v.pc.box == cs[c].pc.box
    ensures CallsOwn(cs[c := v], owner)
  {
  }

  lemma OwnEnds(cs: map<nat, Call>, owner: map<Box, Owner>, c: nat)
    requires CallsOwn(cs, owner) && (c in cs ==> !Sends(cs[c]))
    ensures CallsOwn(cs - {c}, owner)
  {
  }

  lemma OwnSignal(cs: map<nat, Call>, owner: map<Box, Owner>, wake: Option<nat>)
    requires CallsOwn(cs, owner)
    ensures CallsOwn(Signal(cs, wake), owner)
  {
    if wake.Some? && wake.value in cs {
      OwnSets(cs, owner, wake.value, WakeRecv(WakeSend(cs[wake.value])));
    }
  }

  lemma OwnEach(cs: map<nat, Call>, owner: map<Box, Owner>, wake: Call -> Call)
    requires CallsOwn(cs, owner)
    requires forall v :: Sends(wake(v)) == Sends(v) && (Sends(v) ==> wake(v).pc.box == v.pc.box)
    ensures CallsOwn(Each(cs, wake), owner)
  {
  }

  /** A call about to be settled: woken with the box, or new with a box nobody has seen. */
  ghost predicate Offers(cs: map<nat, Call>, owner: map<Box, Owner>, c: nat, b: Box) {
    if c in cs then cs[c].pc == SendWoken(b) else b !in owner
  }

  lemma LoggedEnter(owner: map<Box, Owner>, log: multiset<Outcome>, b: Box)
    requires Logged(owner, log) && (b in owner ==> owner[b].InCall?)
    ensures Logged(owner[b := InSlot], log + multiset{Outcome(b, None, 0)})
  {
  }

  lemma LoggedStaysOut(owner: map<Box, Owner>, log: multiset<Outcome>, b: Box, code: nat)
    requires Logged(owner, log) && (b in owner ==> owner[b].InCall?) && (code == 1 || code == 2)
    ensures Logged(owner[b := GivenBack], log + multiset{Outcome(b, Some(b), code)})
  {
  }

  /** A box moves between owners that mean the same to its send. */
  lemma LoggedMove(owner: map<Box, Owner>, log: multiset<Outcome>, b: Box, o: Owner)
    requires Logged(owner, log) && o != GivenBack && (b in owner ==> owner[b] != GivenBack)
    requires WasAccepted(o) == (b in owner && WasAccepted(owner[b]))
    ensures Logged(owner[b := o], log)
  {
  }

  /** The box of a call that ends is queued. */
  lemma BoxesEnter(q: seq<Box>, cs: map<nat, Call>, k: Book, c: nat, b: Box)
    requires Boxes(q, cs, k) && Offers(cs, k.owner, c, b)
    ensures Boxes(q + [b], cs - {c}, k.Enters(b).Logs(Outcome(b, None, 0)))
  {
    PlacedPush(q, k.owner, InSlot, b);
    PlacedFrame(k.received, k.owner, Delivered, b, InSlot);
    PlacedFrame(k.dropped, k.owner, Destroyed, b, InSlot);
    CallsLetGo(cs, k.owner, c, b, InSlot);
    LoggedEnter(k.owner, k.log, b);
    assert k.received + k.dropped + (q + [b]) == k.accepted + [b];
  }

  lemma BoxesStayOut(q: seq<Box>, cs: map<nat, Call>, k: Book, c: nat, b: Box, code: nat)
    requires Boxes(q, cs, k) && Offers(cs, k.owner, c, b) && (code == 1 || code == 2)
    ensures Boxes(q, cs - {c}, k.StaysOut(b).Logs(Outcome(b, Some(b), code)))
  {
    PlacedFrame(q, k.owner, InSlot, b, GivenBack);
    PlacedFrame(k.received, k.owner, Delivered, b, GivenBack);
    PlacedFrame(k.dropped, k.owner, Destroyed, b, GivenBack);
    CallsLetGo(cs, k.owner, c, b, GivenBack);
    LoggedStaysOut(k.owner, k.log, b, code);
  }

  lemma BoxesWait(q: seq<Box>, cs: map<nat, Call>, k: Book, c: nat, v: Call)
    requires Boxes(q, cs, k) && v.pc.SendAsleep? && Offers(cs, k.owner, c, v.pc.box)
    ensures Boxes(q, cs[c := v], k.Waits(v.pc.box, c))
  {
    CallHolds(cs, k.owner, c, v);
    KeptWait(q, k, v.pc.box, c);
  }

  lemma KeptWait(q: seq<Box>, k: Book, b: Box, c: nat)
    requires Kept(q, k) && (b in k.owner ==> k.owner[b].InCall?)
    ensures Kept(q, k.Waits(b, c))
  {
    PlacedFrame(q, k.owner, InSlot, b, InCall(c));
    PlacedFrame(k.received, k.owner, Delivered, b, InCall(c));
    PlacedFrame(k.dropped, k.owner, Destroyed, b, InCall(c));
    LoggedMove(k.owner, k.log, b, InCall(c));
  }

  lemma CallsFrame(cs: map<nat, Call>, owner: map<Box, Owner>, b: Box, o: Owner)
    requires CallsOwn(cs, owner) && b in owner && !owner[b].InCall? && !o.InCall?
    ensures CallsOwn(cs, owner[b := o])
  {
  }

  lemma KeptLeave(q: seq<Box>, k: Book)
    requires Kept(q, k) && q != [] && k.dropped == []
    ensures q[0] in k.owner && k.owner[q[0]] == InSlot && Kept(q[1..], k.Leaves(q[0]))
  {
    PlacedPop(q, k.owner, InSlot, Delivered);
    PlacedPush(k.received, k.owner, Delivered, q[0]);
    PlacedFrame(k.dropped, k.owner, Destroyed, q[0], Delivered);
    LoggedMove(k.owner, k.log, q[0], Delivered);
    assert k.received + [] + q == k.received + [q[0]] + [] + q[1..];
  }

  // The sweep: what was in a slot is released.

  lemma SweptPlaced(q: seq<Box>, k: Book)
    requires Placed(q, k.owner, InSlot) && Placed(k.dropped, k.owner, Destroyed)
    ensures Placed(k.dropped + q, Swept(k.owner), Destroyed) && Placed([], Swept(k.owner), InSlot)
  {
    assert multiset(k.dropped + q) == multiset(k.dropped) + multiset(q);
  }

  lemma SweptFrame(k: Book)
    requires Placed(k.received, k.owner, Delivered) && Logged(k.owner, k.log)
    ensures Placed(k.received, Swept(k.owner), Delivered) && Logged(Swept(k.owner), k.log)
  {
  }

  lemma SweptCalls(cs: map<nat, Call>, owner: map<Box, Owner>)
    requires CallsOwn(cs, owner)
    ensures CallsOwn(cs, Swept(owner))
  {
  }

  lemma Regroup(r: seq<Box>, d: seq<Box>, q: seq<Box>)
    ensures r + d + q == r + (d + q) + []
  {
  }

  lemma BoxesSwept(q: seq<Box>, cs: map<nat, Call>, k: Book)
    requires Boxes(q, cs, k)
    ensures Boxes([], cs, SweptBook(q, k))
  {
    SweptPlaced(q, k);
    SweptFrame(k);
    SweptCalls(cs, k.owner);
    Regroup(k.received, k.dropped, q);
  }

  // ---- calls ----

  lemma SetCallKeepsSound(s: State, c: nat, v: Call)
    requires Sound(s) && v.handle in s.handles && RightRole(v, s.handles[v.handle])
    ensures Sound(s.(calls := s.calls[c := v]))
  {
  }

  /** The state after a send whose box entered the ring. */
  ghost function SendDone(s: State, c: nat, box: Box, wake: Option<nat>): State {
    Returned(Entered(s, box, wake), c, box, None, 0)
  }

  lemma SentKeepsConserved(s: State, c: nat, box: Box, wake: Option<nat>)
    requires Conserved(s) && Offers(s.calls, s.book.owner, c, box) && Signals(s, wake, RecvSleeps)
    requires !SendDone(s, c, box, wake).faulted
    ensures Conserved(SendDone(s, c, box, wake))
  {
    if wake.Some? {
      CallMoves(s.calls, wake.value, WakeRecv(WakeSend(s.calls[wake.value])));
    }
    CallEnds(Signal(s.calls, wake), c);
  }

  lemma SettledKeepsSound(s: State, c: nat, wake: Option<nat>, core: Core, book: Book, faulted: bool)
    requires Sound(s) && core == s.core.(queue := core.queue) && |core.queue| <= core.capacity
    requires s.frees == 0 && book.dropped == s.book.dropped
    ensures Sound(s.(core := core, book := book, calls := Signal(s.calls, wake) - {c}, faulted := faulted))
  {
  }

  lemma SentKeepsBoxes(s: State, c: nat, box: Box, wake: Option<nat>)
    requires Boxes(s.core.queue, s.calls, s.book)
    requires Offers(s.calls, s.book.owner, c, box) && Signals(s, wake, RecvSleeps)
    ensures var t := SendDone(s, c, box, wake); Boxes(t.core.queue, t.calls, t.book)
  {
    OwnSignal(s.calls, s.book.owner, wake);
    BoxesEnter(s.core.queue, Signal(s.calls, wake), s.book, c, box);
  }

  lemma SentKeeps(s: State, c: nat, box: Box, wake: Option<nat>)
    requires Inv(s) && s.frees == 0 && Offers(s.calls, s.book.owner, c, box) && Signals(s, wake, RecvSleeps)
    requires s.core.IsOpen() && |s.core.queue| < s.core.capacity
    ensures Inv(SendDone(s, c, box, wake))
  {
    var t := SendDone(s, c, box, wake);
    SettledKeepsSound(s, c, wake, t.core, t.book, t.faulted);
    SentKeepsBoxes(s, c, box, wake);
    if !t.faulted {
      SentKeepsConserved(s, c, box, wake);
    }
  }

  lemma EndKeepsSound(s: State, c: nat, book: Book)
    requires Sound(s) && book.dropped == s.book.dropped
    ensures Sound(s.(calls := s.calls - {c}, book := book))
  {
  }

  lemma EndKeepsConserved(s: State, c: nat)
    requires Conserved(s) && (c in s.calls ==> SendIsWoken(s.calls[c]) && !s.core.IsOpen())
    ensures Conserved(s.(calls := s.calls - {c}))
  {
    CallEnds(s.calls, c);
  }

  lemma RefusedKeeps(s: State, c: nat, box: Box, code: nat)
    requires code == 1 || code == 2
    requires Inv(s) && Offers(s.calls, s.book.owner, c, box) && (s.faulted || c !in s.calls || !s.core.IsOpen())
    ensures Inv(Returned(StaysOut(s, box), c, box, Some(box), code))
  {
    var t := Returned(StaysOut(s, box), c, box, Some(box), code);
    EndKeepsSound(s, c, t.book);
    BoxesStayOut(s.core.queue, s.calls, s.book, c, box, code);
    if !s.faulted {
      EndKeepsConserved(s, c);
    }
  }

  lemma WaitsKeeps(s: State, c: nat, v: Call)
    requires Inv(s) && v.pc.SendAsleep? && Offers(s.calls, s.book.owner, c, v.pc.box) && OpenHandle(s, v.handle, Sender)
    requires s.core.IsOpen() && |s.core.queue| == s.core.capacity
    ensures Inv(s.(calls := s.calls[c := v], book := s.book.Waits(v.pc.box, c)))
  {
    SetCallKeepsSound(s, c, v);
    BoxesWait(s.core.queue, s.calls, s.book, c, v);
    CallMoves(s.calls, c, v);
  }

  lemma HandleMeansAlive(s: State, h: nat)
    requires Sound(s) && h in s.handles && HoldsRef(s.handles[h])
    ensures s.frees == 0
  {
    CountPositive(s.handles, HoldsRef);
  }

  /** A send, woken or new, about to look at the queue. */
  ghost predicate MaySend(s: State, c: nat, h: nat, box: Box, block: bool) {
    && Inv(s) && OpenHandle(s, h, Sender) && Offers(s.calls, s.book.owner, c, box)
    && (c in s.calls ==> block)
  }

  lemma SendEntersKeeps(s: State, c: nat, h: nat, box: Box, block: bool, wake: Option<nat>)
    requires MaySend(s, c, h, box, block) && Signals(s, wake, RecvSleeps) && Judge(s.core, block) == Enter
    ensures Inv(SendPass(s, c, h, box, block, wake))
  {
    HandleMeansAlive(s, h);
    SentKeeps(s, c, box, wake);
  }

  lemma SendWaitsKeeps(s: State, c: nat, h: nat, box: Box, block: bool, wake: Option<nat>)
    requires MaySend(s, c, h, box, block) && Judge(s.core, block) == Wait
    ensures Inv(SendPass(s, c, h, box, block, wake))
  {
    WaitsKeeps(s, c, Call(h, SendAsleep(box)));
  }

  lemma SendRefusedKeeps(s: State, c: nat, h: nat, box: Box, block: bool, wake: Option<nat>)
    requires MaySend(s, c, h, box, block) && (Judge(s.core, block) == Full || Judge(s.core, block) == Closed)
    ensures Inv(SendPass(s, c, h, box, block, wake))
  {
    var code := Code(Judge(s.core, block));
    assert SendPass(s, c, h, box, block, wake) == Returned(StaysOut(s, box), c, box, Some(box), code);
    RefusedKeeps(s, c, box, code);
  }

  lemma SendPassKeeps(s: State, c: nat, h: nat, box: Box, block: bool, wake: Option<nat>)
    requires MaySend(s, c, h, box, block) && Signals(s, wake, RecvSleeps)
    ensures Inv(SendPass(s, c, h, box, block, wake))
  {
    match Judge(s.core, block) {
      case Enter => SendEntersKeeps(s, c, h, box, block, wake);
      case Wait => SendWaitsKeeps(s, c, h, box, block, wake);
      case _ => SendRefusedKeeps(s, c, h, box, block, wake);
    }
  }

  /** A receive, woken or new. */
  ghost predicate Looks(s: State, c: nat) { c in s.calls ==> s.calls[c].pc.RecvWoken? }

  lemma PoppedKeepsConserved(s: State, c: nat, wake: Option<nat>)
    requires Conserved(s) && Looks(s, c) && s.core.queue != [] && Signals(s, wake, SendSleeps)
    requires !Popped(s, c, wake).faulted
    ensures Conserved(Popped(s, c, wake))
  {
    if wake.Some? {
      CallMoves(s.calls, wake.value, WakeRecv(WakeSend(s.calls[wake.value])));
    }
    CallEnds(Signal(s.calls, wake), c);
  }

  lemma PoppedKeepsBoxes(s: State, c: nat, wake: Option<nat>)
    requires Boxes(s.core.queue, s.calls, s.book) && s.book.dropped == []
    requires Looks(s, c) && s.core.queue != [] && Signals(s, wake, SendSleeps)
    ensures Boxes(s.core.queue[1..], Signal(s.calls, wake) - {c}, s.book.Leaves(s.core.queue[0]))
  {
    KeptLeave(s.core.queue, s.book);
    OwnSignal(s.calls, s.book.owner, wake);
    OwnEnds(Signal(s.calls, wake), s.book.owner, c);
    CallsFrame(Signal(s.calls, wake) - {c}, s.book.owner, s.core.queue[0], Delivered);
  }

  lemma PoppedKeeps(s: State, c: nat, wake: Option<nat>)
    requires Inv(s) && Looks(s, c) && s.core.queue != [] && Signals(s, wake, SendSleeps)
    ensures Inv(Popped(s, c, wake))
  {
    var t := Popped(s, c, wake);
    SettledKeepsSound(s, c, wake, t.core, t.book, t.faulted);
    PoppedKeepsBoxes(s, c, wake);
    if !t.faulted {
      PoppedKeepsConserved(s, c, wake);
    }
  }

  lemma RecvSleepsKeepsConserved(s: State, c: nat, v: Call)
    requires Conserved(s) && Looks(s, c) && v.pc.RecvAsleep? && s.core.queue == [] && !s.core.closed
    ensures Conserved(s.(calls := s.calls[c := v]))
  {
    CallMoves(s.calls, c, v);
  }

  lemma RecvSleepsKeeps(s: State, c: nat, v: Call)
    requires Inv(s) && Looks(s, c) && v.pc.RecvAsleep? && OpenHandle(s, v.handle, Receiver)
    requires s.core.queue == [] && !s.core.closed
    ensures Inv(s.(calls := s.calls[c := v]))
  {
    SetCallKeepsSound(s, c, v);
    OwnSets(s.calls, s.book.owner, c, v);
    if !s.faulted {
      RecvSleepsKeepsConserved(s, c, v);
    }
  }

  lemma RecvEndsKeepsConserved(s: State, c: nat)
    requires Conserved(s) && Looks(s, c) && s.core.queue == []
    ensures Conserved(s.(calls := s.calls - {c}))
  {
    CallEnds(s.calls, c);
  }

  lemma RecvEndsKeeps(s: State, c: nat, ended: nat, empties: nat)
    requires Inv(s) && Looks(s, c) && (s.faulted || s.core.queue == [])
    ensures Inv(s.(calls := s.calls - {c}, ended := ended, empties := empties))
  {
    OwnEnds(s.calls, s.book.owner, c);
    EndKeepsSound(s, c, s.book);
    if !s.faulted {
      RecvEndsKeepsConserved(s, c);
    }
  }

  lemma RecvGetsKeeps(s: State, c: nat, h: nat, block: bool, wake: Option<nat>)
    requires Inv(s) && Looks(s, c) && Signals(s, wake, SendSleeps) && Receive(s.core, block).Got?
    ensures Inv(RecvPass(s, c, h, block, wake))
  {
    assert RecvPass(s, c, h, block, wake) == Popped(s, c, wake);
    PoppedKeeps(s, c, wake);
  }

  lemma RecvWaitsKeeps(s: State, c: nat, h: nat, block: bool, wake: Option<nat>)
    requires Inv(s) && Looks(s, c) && OpenHandle(s, h, Receiver) && Receive(s.core, block).Sleep?
    ensures Inv(RecvPass(s, c, h, block, wake))
  {
    RecvSleepsKeeps(s, c, Call(h, RecvAsleep));
  }

  lemma RecvReturnsKeeps(s: State, c: nat, h: nat, block: bool, wake: Option<nat>)
    requires Inv(s) && Looks(s, c) && (Receive(s.core, block).Empty? || Receive(s.core, block).Ended?)
    ensures Inv(RecvPass(s, c, h, block, wake))
  {
    var ended := s.ended + One(Receive(s.core, block).Ended?);
    RecvEndsKeeps(s, c, ended, s.empties + One(Receive(s.core, block).Empty?));
  }

  lemma RecvPassKeeps(s: State, c: nat, h: nat, block: bool, wake: Option<nat>)
    requires Inv(s) && Looks(s, c) && OpenHandle(s, h, Receiver) && Signals(s, wake, SendSleeps)
    ensures Inv(RecvPass(s, c, h, block, wake))
  {
    match Receive(s.core, block) {
      case Got(_) => RecvGetsKeeps(s, c, h, block, wake);
      case Sleep => RecvWaitsKeeps(s, c, h, block, wake);
      case _ => RecvReturnsKeeps(s, c, h, block, wake);
    }
  }

  lemma SpuriousKeepsConserved(s: State, c: nat)
    requires Conserved(s) && c in s.calls
    ensures Conserved(s.(calls := s.calls[c := WakeRecv(WakeSend(s.calls[c]))]))
  {
    CallMoves(s.calls, c, WakeRecv(WakeSend(s.calls[c])));
  }

  lemma SpuriousKeeps(s: State, c: nat)
    requires Inv(s) && c in s.calls
    ensures Inv(s.(calls := s.calls[c := WakeRecv(WakeSend(s.calls[c]))]))
  {
    var v := WakeRecv(WakeSend(s.calls[c]));
    SetCallKeepsSound(s, c, v);
    OwnSets(s.calls, s.book.owner, c, v);
    if !s.faulted {
      SpuriousKeepsConserved(s, c);
    }
  }

  lemma WaitErrorKeeps(s: State, c: nat)
    requires Inv(s) && CallEnabled(s, c, WaitError)
    ensures Inv(CallApply(s, c, WaitError))
  {
    var s1 := s.(faulted := true);
    if Sends(s.calls[c]) {
      RefusedKeeps(s1, c, s.calls[c].pc.box, 2);
    } else {
      RecvEndsKeeps(s1, c, s.ended, s.empties);
    }
  }

  lemma CallHandle(cs: map<nat, Call>, hs: map<nat, Handle>, c: nat)
    requires CallsOpen(cs, hs) && c in cs
    ensures cs[c].handle in hs && hs[cs[c].handle] == Handle(if Sends(cs[c]) then Sender else Receiver, Open)
  {
  }

  lemma SendRetryKeeps(s: State, c: nat, wake: Option<nat>)
    requires Inv(s) && CallEnabled(s, c, SendRetry(wake))
    ensures Inv(CallApply(s, c, SendRetry(wake)))
  {
    CallHandle(s.calls, s.handles, c);
    SendPassKeeps(s, c, s.calls[c].handle, s.calls[c].pc.box, true, wake);
  }

  lemma RecvRetryKeeps(s: State, c: nat, wake: Option<nat>)
    requires Inv(s) && CallEnabled(s, c, RecvRetry(wake))
    ensures Inv(CallApply(s, c, RecvRetry(wake)))
  {
    CallHandle(s.calls, s.handles, c);
    var h := s.calls[c].handle;
    assert CallApply(s, c, RecvRetry(wake)) == RecvPass(s, c, h, true, wake);
    RecvPassKeeps(s, c, h, true, wake);
  }

  lemma CallKeeps(s: State, c: nat, e: CallStep)
    requires Inv(s) && CallEnabled(s, c, e)
    ensures Inv(CallApply(s, c, e))
  {
    match e {
      case Send(h, box, block, wake) => SendPassKeeps(s, c, h, box, block, wake);
      case SendFails(_, box) => RefusedKeeps(s, c, box, 2);
      case SendRetry(wake) => SendRetryKeeps(s, c, wake);
      case Recv(h, block, wake) => RecvPassKeeps(s, c, h, block, wake);
      case RecvRetry(wake) => RecvRetryKeeps(s, c, wake);
      case Spurious => SpuriousKeeps(s, c);
      case WaitError => WaitErrorKeeps(s, c);
    }
  }

  // ---- handles ----

  lemma WokenKeepsOpen(cs: map<nat, Call>, hs: map<nat, Handle>, readers: bool, writers: bool)
    requires CallsOpen(cs, hs)
    ensures CallsOpen(Woken(cs, readers, writers), hs)
  {
  }

  lemma WokenKeepsOwn(cs: map<nat, Call>, owner: map<Box, Owner>, readers: bool, writers: bool)
    requires CallsOwn(cs, owner)
    ensures CallsOwn(Woken(cs, readers, writers), owner)
  {
    if readers {
      OwnEach(cs, owner, WakeRecv);
    }
    if writers {
      OwnEach(if readers then Each(cs, WakeRecv) else cs, owner, WakeSend);
    }
  }

  lemma CloseKeeps(s: State, h: nat, readers: bool, writers: bool)
    requires Inv(s) && HandleEnabled(s, h, Close(readers, writers))
    ensures Inv(HandleApply(s, h, Close(readers, writers)))
  {
    WokenKeepsOpen(s.calls, s.handles, readers, writers);
    WokenKeepsOwn(s.calls, s.book.owner, readers, writers);
    AllWake(s.calls);
  }

  lemma OpenedKeepsOpen(cs: map<nat, Call>, hs: map<nat, Handle>, h: nat, v: Handle)
    requires CallsOpen(cs, hs) && h !in hs
    ensures CallsOpen(cs, hs[h := v])
  {
  }

  lemma SendersStay(hs: map<nat, Handle>, h: nat, v: Handle)
    requires OnlySenders(hs) && v.role.Sender?
    ensures OnlySenders(hs[h := v])
  {
  }

  lemma NewHandleKeepsSound(s: State, h: nat, e: HandleStep)
    requires Sound(s) && HandleEnabled(s, h, e) && (e.MakeReceiver? || e.ShareSender?)
    ensures Sound(HandleApply(s, h, e))
  {
    var v := Handle(if e.MakeReceiver? then Receiver else Sender, Open);
    HandleMoves(s.handles, e.h2, v);
    OpenedKeepsOpen(s.calls, s.handles, e.h2, v);
    HandleMeansAlive(s, h);
    if !s.made && e.ShareSender? {
      SendersStay(s.handles, e.h2, v);
    }
  }

  lemma NewHandleKeeps(s: State, h: nat, e: HandleStep)
    requires Inv(s) && HandleEnabled(s, h, e) && (e.MakeReceiver? || e.ShareSender?)
    ensures Inv(HandleApply(s, h, e))
  {
    NewHandleKeepsSound(s, h, e);
    CountPositive(s.handles, IsOpenSender);
  }

  /** The calls through other handles do not notice. */
  lemma DropKeepsOpen(cs: map<nat, Call>, hs: map<nat, Handle>, h: nat, v: Handle)
    requires CallsOpen(cs, hs) && forall c :: c in cs ==> cs[c].handle != h
    ensures CallsOpen(cs, hs[h := v])
  {
  }

  lemma DropLockKeepsSound(s: State, h: nat)
    requires Sound(s) && HandleEnabled(s, h, DropLock)
    ensures Sound(HandleApply(s, h, DropLock))
  {
    var v := s.handles[h].(pc := Dropping);
    HandleMoves(s.handles, h, v);
    DropKeepsOpen(s.calls, s.handles, h, v);
    WokenKeepsOpen(s.calls, s.handles[h := v], true, true);
  }

  lemma DropLockKeeps(s: State, h: nat)
    requires Inv(s) && HandleEnabled(s, h, DropLock)
    ensures Inv(HandleApply(s, h, DropLock))
  {
    DropLockKeepsSound(s, h);
    WokenKeepsOwn(s.calls, s.book.owner, true, true);
    AllWake(s.calls);
    CountPositive(s.handles, IsOpenSender);
  }

  lemma NobodyLeft(s: State)
    requires Sound(s) && s.refs == 0
    ensures Count(s.calls, SendSleeps) == 0 && Count(s.calls, RecvSleeps) == 0
  {
    forall c | c in s.calls ensures false {
      HandleMeansAlive(s, s.calls[c].handle);
    }
    assert At(s.calls, SendSleeps) == {} && At(s.calls, RecvSleeps) == {};
  }

  /** What dropping a reference does, apart from the books. */
  lemma UnrefEffect(s: State)
    ensures var u := Unref(s);
      && u == s.(refs := u.refs, frees := u.frees, core := u.core, book := u.book) && u.refs == s.refs - 1
      && u.frees == s.frees + One(s.refs == 1)
      && u.core == (if s.refs == 1 then s.core.(queue := []) else s.core)
      && (s.refs != 1 ==> u.book == s.book)
  {
  }

  lemma ReleaseKeepsOpen(cs: map<nat, Call>, hs: map<nat, Handle>, h: nat, v: Handle)
    requires CallsOpen(cs, hs) && h in hs && !hs[h].pc.Open?
    ensures CallsOpen(cs, hs[h := v])
  {
  }

  lemma DropReleaseKeepsSound(s: State, h: nat)
    requires Sound(s) && HandleEnabled(s, h, DropRelease)
    ensures Sound(HandleApply(s, h, DropRelease))
  {
    var v := s.handles[h].(pc := Released);
    HandleMoves(s.handles, h, v);
    HandleMeansAlive(s, h);
    ReleaseKeepsOpen(s.calls, s.handles, h, v);
    UnrefEffect(s.(handles := s.handles[h := v]));
    if !s.made {
      SendersStay(s.handles, h, v);
    }
  }

  lemma UnrefKeepsBoxes(s: State)
    requires Boxes(s.core.queue, s.calls, s.book)
    ensures Boxes(Unref(s).core.queue, s.calls, Unref(s).book)
  {
    if s.refs == 1 {
      BoxesSwept(s.core.queue, s.calls, s.book);
    }
  }

  lemma DropReleaseKeeps(s: State, h: nat)
    requires Inv(s) && HandleEnabled(s, h, DropRelease)
    ensures Inv(HandleApply(s, h, DropRelease))
  {
    var s1 := s.(handles := s.handles[h := s.handles[h].(pc := Released)]);
    DropReleaseKeepsSound(s, h);
    UnrefEffect(s1);
    UnrefKeepsBoxes(s1);
    if Unref(s1).refs == 0 {
      NobodyLeft(Unref(s1));
    }
  }

  lemma HandleKeeps(s: State, h: nat, e: HandleStep)
    requires Inv(s) && HandleEnabled(s, h, e)
    ensures Inv(HandleApply(s, h, e))
  {
    match e {
      case Close(readers, writers) => CloseKeeps(s, h, readers, writers);
      case DropLock => DropLockKeeps(s, h);
      case DropRelease => DropReleaseKeeps(s, h);
      case _ => NewHandleKeeps(s, h, e);
    }
  }

  // ---- over every run ----

  lemma CreateHolds(capacity: nat)
    requires capacity > 0
    ensures Inv(Create(capacity))
  {
    var s := Create(capacity);
    assert At(s.handles, IsOpenSender) == {0} && At(s.handles, HoldsRef) == {0};
    assert At(s.calls, SendSleeps) == {} && At(s.calls, RecvSleeps) == {};
  }

  lemma StepKeeps(s: State, e: Event)
    requires Inv(s) && Enabled(s, e)
    ensures Inv(Apply(s, e))
  {
    match e {
      case ByCall(c, step) => CallKeeps(s, c, step);
      case ByHandle(h, step) => HandleKeeps(s, h, step);
    }
  }

  lemma {:induction false} RunKeeps(s: State, es: seq<Event>)
    requires Inv(s) && Possible(s, es)
    ensures Inv(After(s, es))
    decreases |es|
  {
    if es != [] {
      StepKeeps(s, es[0]);
      RunKeeps(Apply(s, es[0]), es[1..]);
    }
  }

  ghost predicate Reachable(s: State) {
    exists capacity: nat, es: seq<Event> ::
      capacity > 0 && Possible(Create(capacity), es) && s == After(Create(capacity), es)
  }

  lemma ReachableHolds(s: State)
    requires Reachable(s)
    ensures Inv(s)
  {
    var capacity: nat, es: seq<Event> :|
      capacity > 0 && Possible(Create(capacity), es) && s == After(Create(capacity), es);
    CreateHolds(capacity);
    RunKeeps(Create(capacity), es);
  }

  /** The calls that hold the box `b`. */
  function HoldsBox(b: Box): Call -> bool { c => Sends(c) && c.pc.box == b }

  lemma Holders(cs: map<nat, Call>, owner: map<Box, Owner>, b: Box)
    requires CallsOwn(cs, owner) && b in owner
    ensures Count(cs, HoldsBox(b)) == One(owner[b].InCall?)
    ensures forall c :: owner[b] == InCall(c) <==> c in cs && Sends(cs[c]) && cs[c].pc.box == b
  {
    assert At(cs, HoldsBox(b)) == if owner[b].InCall? then {owner[b].c} else {};
  }

  /**
    Every box ever offered is in one place: held by one call, in one slot, given back by its send,
    received, or released with the core, and each of these once.
   */
  lemma BoxOwnership(s: State, b: Box)
    requires Reachable(s) && b in s.book.owner
    ensures Count(s.calls, HoldsBox(b)) + multiset(s.core.queue)[b] + Backs(s.book.log, b)
            + multiset(s.book.received)[b] + s.book.released[b] == 1
    ensures forall c :: s.book.owner[b] == InCall(c) <==> c in s.calls && Sends(s.calls[c]) && s.calls[c].pc.box == b
    ensures s.frees == 1 ==> Count(s.calls, HoldsBox(b)) == 0 && s.core.queue == []
  {
    ReachableHolds(s);
    Holders(s.calls, s.book.owner, b);
    if s.frees == 1 && s.book.owner[b].InCall? {
      HandleMeansAlive(s, s.calls[s.book.owner[b].c].handle);
    }
  }

  /** What enters comes out in order, and nothing comes out twice. */
  lemma Fifo(s: State)
    requires Reachable(s)
    ensures s.frees == 0 ==> s.book.accepted == s.book.received + s.core.queue
    ensures s.book.received <= s.book.accepted
    ensures forall x :: multiset(s.book.accepted)[x] <= 1
  {
    ReachableHolds(s);
    InOrder(s.core.queue, s.book);
    forall x ensures multiset(s.book.accepted)[x] <= 1 {
      AcceptedOnce(s.core.queue, s.book, x);
    }
  }

  lemma InOrder(q: seq<Box>, k: Book)
    requires Kept(q, k)
    ensures k.received <= k.accepted && (k.dropped == [] ==> k.accepted == k.received + q)
  {
  }

  lemma AcceptedOnce(q: seq<Box>, k: Book, b: Box)
    requires Kept(q, k)
    ensures multiset(k.accepted)[b] == One(b in k.owner && WasAccepted(k.owner[b]))
  {
    assert multiset(k.accepted) == multiset(k.received) + multiset(k.dropped) + multiset(q);
  }

  /** A send returns once, NULL if and only if its box entered the ring, and otherwise the box itself. */
  lemma NullMeansEntered(s: State, b: Box)
    requires Reachable(s)
    ensures s.book.log[Outcome(b, None, 0)] == multiset(s.book.accepted)[b]
    ensures s.book.log[Outcome(b, None, 0)] + Backs(s.book.log, b) <= 1
    ensures forall o :: o in s.book.log ==> Good(o)
    ensures b in s.book.owner ==>
              (s.book.owner[b].InCall? <==> s.book.log[Outcome(b, None, 0)] + Backs(s.book.log, b) == 0)
  {
    ReachableHolds(s);
    AcceptedOnce(s.core.queue, s.book, b);
  }

  lemma WorkConservation(s: State)
    requires Reachable(s) && !s.faulted
    ensures (exists c :: c in s.calls && SendSleeps(s.calls[c])) ==>
              s.core.IsOpen() && Count(s.calls, SendIsWoken) >= s.core.capacity - |s.core.queue|
    ensures (exists c :: c in s.calls && RecvSleeps(s.calls[c])) ==>
              !s.core.closed && Count(s.calls, RecvIsWoken) >= |s.core.queue|
  {
    ReachableHolds(s);
    CountPositive(s.calls, SendSleeps);
    CountPositive(s.calls, RecvSleeps);
  }

  lemma FreedOnce(s: State, e: Event)
    requires Reachable(s) && Enabled(s, e)
    ensures s.frees == 0 && Apply(s, e).frees <= 1
  {
    ReachableHolds(s);
    StepKeeps(s, e);
    AtMostOneFree(Apply(s, e));
    match e {
      case ByCall(c, step) =>
        if c in s.calls {
          CallHandle(s.calls, s.handles, c);
          HandleMeansAlive(s, s.calls[c].handle);
        } else {
          HandleMeansAlive(s, step.h);
        }
      case ByHandle(h, _) => HandleMeansAlive(s, h);
    }
  }

  lemma AtMostOneFree(s: State)
    requires Inv(s)
    ensures s.frees <= 1
  {
  }
}
