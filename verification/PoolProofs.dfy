/** Every step of the thread pool keeps the invariant, so every state of every run has it. */
module PoolProofs {
  import opened Threads
  import opened PoolCores
  import opened Pools
  import opened PoolInvariants
  import opened PoolTasks

  /** What dropping a reference does when the queue is empty. */
  lemma UnrefEmpty(s: State)
    requires s.core.queue == []
    ensures Unref(s) == s.(refs := s.refs - 1, frees := s.frees + One(s.refs == 1))
  {
    assert s.book.released + multiset(s.core.queue) == s.book.released;
  }

  lemma UnrefKept(s: State)
    requires s.refs != 1
    ensures Unref(s) == s.(refs := s.refs - 1)
  {
  }

  // ---- constructor steps ----

  lemma GrowKeepsSound(s: State, e: CtorStep)
    requires Sound(s) && CtorEnabled(s, e) && (e.IncRef? || e.CountWorker? || e.SpawnFails?)
    ensures Sound(CtorApply(s, e))
  {
  }

  lemma SpawnKeeps(s: State, w: nat)
    requires Inv(s) && CtorEnabled(s, Spawn(w))
    ensures Inv(CtorApply(s, Spawn(w)))
  {
    WorkerMoves(s.workers, w, Fetching);
    IdleMoveKeeps(s.core.queue, s.workers, s.calls, s.book, w, Fetching);
  }

  lemma WrapKeepsSound(s: State, h: nat)
    requires Sound(s) && CtorEnabled(s, Wrap(h))
    ensures Sound(CtorApply(s, Wrap(h)))
  {
    HandleMoves(s.handles, h, Open);
  }

  lemma WrapKeeps(s: State, h: nat)
    requires Inv(s) && CtorEnabled(s, Wrap(h))
    ensures Inv(CtorApply(s, Wrap(h)))
  {
    WrapKeepsSound(s, h);
  }

  lemma RollbackCloseKeepsSound(s: State)
    requires Sound(s) && s.ctor.RollClose?
    ensures Sound(CloseAndWake(s).(ctor := RollWait))
  {
    WorkersWake(s.workers);
    SubmittersWake(s.calls);
  }

  lemma RollbackCloseKeeps(s: State)
    requires Inv(s) && CtorEnabled(s, RollbackClose)
    ensures Inv(CtorApply(s, RollbackClose))
  {
    assert CtorApply(s, RollbackClose) == CloseAndWake(s).(ctor := RollWait, shut := true);
    RollbackCloseKeepsSound(s);
    CloseKeepsTasks(s);
    CloseKeepsConserved(s);
  }

  lemma RollbackMoveKeepsSound(s: State, e: CtorStep)
    requires Sound(s) && CtorEnabled(s, e) && (e.RollbackCount? || e.RollbackCheck? || e.RollbackSpurious?)
    ensures Sound(CtorApply(s, e))
  {
    if e.RollbackCount? {
      assert At(s.calls, ShutSleeps) == {};
    }
  }

  lemma RollbackUnrefKeepsSound(s: State, ctor: Ctor)
    requires Sound(s) && (if s.ctor.RollRef? then ctor.RollClose? else s.ctor.RollFree? && ctor.Failed?)
    ensures Sound(s.(refs := s.refs - 1, frees := s.frees + One(s.refs == 1), ctor := ctor))
  {
  }

  lemma RollbackUnrefKeeps(s: State, e: CtorStep)
    requires Inv(s) && CtorEnabled(s, e) && (e.RollbackRef? || e.RollbackFree?)
    ensures Inv(CtorApply(s, e))
  {
    UnrefEmpty(s);
    RollbackUnrefKeepsSound(s, if e.RollbackRef? then RollClose else Failed);
  }

  lemma CtorKeeps(s: State, e: CtorStep)
    requires Inv(s) && CtorEnabled(s, e)
    ensures Inv(CtorApply(s, e))
  {
    match e {
      case Wrap(h) => WrapKeeps(s, h);
      case Spawn(w) => SpawnKeeps(s, w);
      case RollbackClose => RollbackCloseKeeps(s);
      case RollbackRef => RollbackUnrefKeeps(s, e);
      case RollbackFree => RollbackUnrefKeeps(s, e);
      case RollbackCount => RollbackMoveKeepsSound(s, e);
      case RollbackCheck => RollbackMoveKeepsSound(s, e);
      case RollbackSpurious => RollbackMoveKeepsSound(s, e);
      case _ => GrowKeepsSound(s, e);
    }
  }

  // ---- worker steps ----

  /** The program counter a worker leaves the lock with. */
  function PcAfterLock(turn: Turn): WorkerPc {
    match turn
    case Sleep => Asleep
    case Leave => Exiting
    case Take(k) => Taken(k)
  }

  /** A live worker moves on and stays live. */
  lemma LiveMoveKeepsSound(s: State, w: nat, p: WorkerPc)
    requires Sound(s) && w in s.workers && IsLive(s.workers[w]) && IsLive(p)
    ensures Sound(s.(workers := s.workers[w := p]))
  {
    WorkerMoves(s.workers, w, p);
  }

  lemma SpuriousKeeps(s: State, w: nat)
    requires Inv(s) && WorkerEnabled(s, w, Spurious)
    ensures Inv(WorkerApply(s, w, Spurious))
  {
    LiveMoveKeepsSound(s, w, Fetching);
    WorkerMoves(s.workers, w, Fetching);
    IdleMoveKeeps(s.core.queue, s.workers, s.calls, s.book, w, Fetching);
  }

  lemma CallTaskKeeps(s: State, w: nat)
    requires Inv(s) && WorkerEnabled(s, w, CallTask)
    ensures Inv(WorkerApply(s, w, CallTask))
  {
    var p := Running(s.workers[w].task);
    LiveMoveKeepsSound(s, w, p);
    WorkerMoves(s.workers, w, p);
    StartKeeps(s.core.queue, s.workers, s.calls, s.book, w);
  }

  lemma TaskReturnsKeeps(s: State, w: nat)
    requires Inv(s) && WorkerEnabled(s, w, Return)
    ensures Inv(WorkerApply(s, w, Return))
  {
    LiveMoveKeepsSound(s, w, Fetching);
    WorkerMoves(s.workers, w, Fetching);
    ReturnKeeps(s.core.queue, s.workers, s.calls, s.book, w);
  }

  lemma WorkerSleepsKeeps(s: State, w: nat, wake: Option<nat>)
    requires Inv(s) && WorkerEnabled(s, w, Lock(wake)) && WorkerTurn(s.core).Sleep?
    ensures Inv(WorkerApply(s, w, Lock(wake)))
  {
    LiveMoveKeepsSound(s, w, Asleep);
    WorkerMoves(s.workers, w, Asleep);
    IdleMoveKeeps(s.core.queue, s.workers, s.calls, s.book, w, Asleep);
  }

  /** The worker's own part of leaving. */
  lemma LeftKeepsSound(s: State, w: nat)
    requires Sound(s) && w in s.workers && s.workers[w].Fetching? && s.core.queue == [] && !s.core.accepting
    requires Count(s.calls, ShutSleeps) == 0 && !s.ctor.RollAsleep?
    ensures Sound(s.(core := s.core.(live := s.core.live - 1), workers := s.workers[w := Exiting]))
  {
    WorkerMoves(s.workers, w, Exiting);
    CountPositive(s.workers, IsLive);
  }

  /** The broadcast on stopped. */
  ghost function Stopping(s: State): State {
    s.(calls := Each(s.calls, WakeShut), ctor := if s.ctor.RollAsleep? then RollWait else s.ctor)
  }

  lemma StoppingKeepsSound(s: State)
    requires Sound(s)
    ensures Sound(Stopping(s)) && Count(Stopping(s).calls, ShutSleeps) == 0
  {
    ShutdownsWake(s.calls);
  }

  lemma LeftKeepsConserved(s: State, w: nat)
    requires Conserved(s) && w in s.workers && s.workers[w].Fetching? && !s.core.accepting
    ensures WorkersConserved(s.workers[w := Exiting], s.core.(live := s.core.live - 1))
    ensures SubmittersConserved(Each(s.calls, WakeShut), s.core.(live := s.core.live - 1))
  {
    WorkerMoves(s.workers, w, Exiting);
    ShutdownsWake(s.calls);
  }

  lemma LeftKeepsTasks(s: State, w: nat)
    requires Tasks(s.core.queue, s.workers, s.calls, s.book) && w in s.workers && s.workers[w].Fetching?
    ensures Tasks(s.core.queue, s.workers[w := Exiting], Each(s.calls, WakeShut), s.book)
  {
    OwnEach(s.calls, s.book.owner, WakeShut);
    IdleMoveKeeps(s.core.queue, s.workers, Each(s.calls, WakeShut), s.book, w, Exiting);
  }

  lemma LeftKeeps(s: State, w: nat, t: State)
    requires Inv(s) && w in s.workers && s.workers[w].Fetching? && s.core.queue == [] && !s.core.accepting
    requires t == Stopping(s).(core := s.core.(live := s.core.live - 1), workers := s.workers[w := Exiting])
    ensures Inv(t)
  {
    StoppingKeepsSound(s);
    LeftKeepsSound(Stopping(s), w);
    LeftKeepsTasks(s, w);
    if !s.faulted {
      LeftKeepsConserved(s, w);
    }
  }

  lemma WorkerLeavesKeeps(s: State, w: nat, wake: Option<nat>)
    requires Inv(s) && WorkerEnabled(s, w, Lock(wake)) && WorkerTurn(s.core).Leave?
    ensures Inv(WorkerApply(s, w, Lock(wake)))
  {
    LeftKeeps(s, w, WorkerApply(s, w, Lock(wake)));
  }

  lemma SignalKeepsSound(s: State, wake: Option<nat>)
    requires Sound(s)
    ensures Sound(s.(calls := SignalSubmit(s.calls, wake)))
  {
    if wake.Some? && wake.value in s.calls {
      CallMoves(s.calls, wake.value, WakeSubmit(s.calls[wake.value]));
    }
  }

  lemma TakenKeepsSound(s: State, w: nat)
    requires Sound(s) && w in s.workers && s.workers[w].Fetching? && s.core.queue != []
    ensures Sound(s.(core := s.core.(queue := s.core.queue[1..]), workers := s.workers[w := Taken(s.core.queue[0])]))
  {
    LiveMoveKeepsSound(s, w, Taken(s.core.queue[0]));
  }

  lemma TakenKeepsConserved(s: State, w: nat, wake: Option<nat>)
    requires Conserved(s) && w in s.workers && s.workers[w].Fetching? && s.core.queue != [] && SubmitSignal(s, wake)
    ensures var core := s.core.(queue := s.core.queue[1..]);
      && WorkersConserved(s.workers[w := Taken(s.core.queue[0])], core)
      && SubmittersConserved(SignalSubmit(s.calls, wake), core)
  {
    WorkerMoves(s.workers, w, Taken(s.core.queue[0]));
    if wake.Some? {
      CallMoves(s.calls, wake.value, WakeSubmit(s.calls[wake.value]));
    }
  }

  lemma TakenKeepsTasks(s: State, w: nat, wake: Option<nat>)
    requires Tasks(s.core.queue, s.workers, s.calls, s.book) && w in s.workers && s.workers[w].Fetching?
    requires s.core.queue != []
    ensures var k := s.core.queue[0];
      Tasks(s.core.queue[1..], s.workers[w := Taken(k)], SignalSubmit(s.calls, wake), s.book.Leaves(k, w))
  {
    OwnSignal(s.calls, s.book.owner, wake);
    TakeKeeps(s.core.queue, s.workers, SignalSubmit(s.calls, wake), s.book, w);
  }

  lemma TakenKeeps(s: State, w: nat, wake: Option<nat>, t: State)
    requires Inv(s) && w in s.workers && s.workers[w].Fetching? && s.core.queue != [] && SubmitSignal(s, wake)
    requires var k := s.core.queue[0];
      t == s.(core := s.core.(queue := s.core.queue[1..]), workers := s.workers[w := Taken(k)],
              calls := SignalSubmit(s.calls, wake), book := s.book.Leaves(k, w))
    ensures Inv(t)
  {
    SignalKeepsSound(s, wake);
    TakenKeepsSound(s.(calls := SignalSubmit(s.calls, wake)), w);
    TakenKeepsTasks(s, w, wake);
    if !s.faulted {
      TakenKeepsConserved(s, w, wake);
    }
  }

  lemma WorkerTakesKeeps(s: State, w: nat, wake: Option<nat>)
    requires Inv(s) && WorkerEnabled(s, w, Lock(wake)) && WorkerTurn(s.core).Take?
    ensures Inv(WorkerApply(s, w, Lock(wake)))
  {
    TakenKeeps(s, w, wake, WorkerApply(s, w, Lock(wake)));
  }

  lemma WorkerLocksKeeps(s: State, w: nat, wake: Option<nat>)
    requires Inv(s) && WorkerEnabled(s, w, Lock(wake))
    ensures Inv(WorkerApply(s, w, Lock(wake)))
  {
    match WorkerTurn(s.core) {
      case Sleep => WorkerSleepsKeeps(s, w, wake);
      case Leave => WorkerLeavesKeeps(s, w, wake);
      case Take(_) => WorkerTakesKeeps(s, w, wake);
    }
  }

  lemma ExitedKeepsSound(s: State, w: nat)
    requires Sound(s) && w in s.workers && s.workers[w].Exiting?
    ensures Sound(s.(workers := s.workers[w := Exited], refs := s.refs - 1, frees := s.frees + One(s.refs == 1)))
  {
    WorkerMoves(s.workers, w, Exited);
    CountPositive(s.workers, IsUnreleased);
  }

  lemma ReleaseKeeps(s: State, w: nat)
    requires Inv(s) && WorkerEnabled(s, w, Release)
    ensures Inv(WorkerApply(s, w, Release))
  {
    ExitedKeepsSound(s, w);
    UnrefEmpty(s.(workers := s.workers[w := Exited]));
    WorkerMoves(s.workers, w, Exited);
    IdleMoveKeeps(s.core.queue, s.workers, s.calls, s.book, w, Exited);
  }

  lemma WorkerKeeps(s: State, w: nat, e: WorkerStep)
    requires Inv(s) && WorkerEnabled(s, w, e)
    ensures Inv(WorkerApply(s, w, e))
  {
    match e {
      case Lock(wake) => WorkerLocksKeeps(s, w, wake);
      case Spurious => SpuriousKeeps(s, w);
      case CallTask => CallTaskKeeps(s, w);
      case Return => TaskReturnsKeeps(s, w);
      case Release => ReleaseKeeps(s, w);
    }
  }

  // ---- calls ----

  /** A call appears, moves on or ends without a task changing hands. */
  lemma CallSetKeepsSound(s: State, c: nat, v: Call)
    requires Sound(s) && s.ctor.Ready? && v.from == External && v.block
    requires v.handle in s.handles && s.handles[v.handle].Open?
    requires ShutSleeps(v) ==> s.core.live > 0
    ensures Sound(s.(calls := s.calls[c := v]))
  {
    CallMoves(s.calls, c, v);
  }

  lemma CallEndKeepsSound(s: State, c: nat)
    requires Sound(s)
    ensures Sound(s.(calls := s.calls - {c}))
  {
    CallEnds(s.calls, c);
    assert s.calls == map[] ==> s.calls - {c} == map[];
  }

  lemma LiveNotNegative(s: State)
    requires Sound(s)
    ensures s.core.live >= 0
  {
  }

  lemma CloseKeepsSound(s: State)
    requires Sound(s) && s.ctor.Ready?
    ensures Sound(CloseAndWake(s))
  {
    WorkersWake(s.workers);
    SubmittersWake(s.calls);
    WokenStayOpen(s.calls, s.handles);
    WokenLeftEmpty(s.workers, s.core);
  }

  lemma WokenStayOpen(cs: map<nat, Call>, hs: map<nat, HandlePc>)
    requires CallsOpen(cs, hs)
    ensures CallsOpen(Each(cs, WakeSubmit), hs)
  {
  }

  lemma WokenLeftEmpty(ws: map<nat, WorkerPc>, core: Core)
    requires LeftEmpty(core, ws)
    ensures LeftEmpty(core.(accepting := false), Each(ws, WakeWorker))
  {
  }

  lemma EnqueueKeepsSound(s: State, task: Task, wake: Option<nat>)
    requires Sound(s) && s.ctor.Ready? && WorkerSignal(s, wake)
    requires s.core.accepting && |s.core.queue| < s.core.capacity
    ensures Sound(Enqueued(s, task, wake))
  {
    if wake.Some? {
      WorkerMoves(s.workers, wake.value, Fetching);
    }
  }

  /** An enqueue pays for one free slot, so one submitter fewer needs to be awake. */
  lemma EnqueueKeepsConserved(s: State, task: Task, wake: Option<nat>)
    requires WorkersConserved(s.workers, s.core) && WorkerSignal(s, wake) && !Enqueued(s, task, wake).faulted
    requires Count(s.calls, SubmitSleeps) > 0 ==>
               s.core.accepting && Count(s.calls, SubmitIsWoken) >= s.core.capacity - |s.core.queue| - 1
    ensures Conserved(Enqueued(s, task, wake))
  {
    if wake.Some? {
      WorkerMoves(s.workers, wake.value, Fetching);
    }
  }

  lemma CloseKeepsConserved(s: State)
    ensures Conserved(CloseAndWake(s))
  {
    WorkersWake(s.workers);
    SubmittersWake(s.calls);
  }

  lemma CloseKeepsTasks(s: State)
    requires Tasks(s.core.queue, s.workers, s.calls, s.book)
    ensures var t := CloseAndWake(s); Tasks(t.core.queue, t.workers, t.calls, t.book)
  {
    WorkersWakeKeeps(s.core.queue, s.workers, s.calls, s.book);
    OwnEach(s.calls, s.book.owner, WakeSubmit);
  }

  lemma CloseKeeps(s: State)
    requires Inv(s) && s.ctor.Ready?
    ensures Inv(CloseAndWake(s).(shut := true))
  {
    CloseKeepsSound(s);
    CloseKeepsTasks(s);
    CloseKeepsConserved(s);
  }

  /** A signalled worker is awake; the tasks stay where they are. */
  lemma SignalKeepsTasks(s: State, wake: Option<nat>)
    requires Tasks(s.core.queue, s.workers, s.calls, s.book) && WorkerSignal(s, wake)
    ensures Tasks(s.core.queue, SignalWorker(s.workers, wake), s.calls, s.book)
  {
    if wake.Some? {
      IdleMoveKeeps(s.core.queue, s.workers, s.calls, s.book, wake.value, Fetching);
    }
  }

  lemma SubmitAcceptedKeeps(s: State, task: Task, wake: Option<nat>)
    requires Inv(s) && s.ctor.Ready? && task !in s.book.owner && WorkerSignal(s, wake)
    requires s.core.accepting && |s.core.queue| < s.core.capacity
    ensures Inv(Enqueued(s, task, wake))
  {
    EnqueueKeepsSound(s, task, wake);
    SignalKeepsTasks(s, wake);
    EnterKeeps(s.core.queue, SignalWorker(s.workers, wake), s.calls, s.book, task);
    if !Enqueued(s, task, wake).faulted {
      EnqueueKeepsConserved(s, task, wake);
    }
  }

  lemma FallsAsleepConserved(s: State, c: nat, v: Call)
    requires Conserved(s) && v.pc.SubmitAsleep? && s.core.accepting && |s.core.queue| == s.core.capacity
    ensures Conserved(s.(calls := s.calls[c := v]))
  {
    CallMoves(s.calls, c, v);
  }

  lemma SubmitWaitsKeeps(s: State, c: nat, v: Call)
    requires Inv(s) && s.ctor.Ready? && c !in s.calls && v.from == External && v.block && v.pc.SubmitAsleep?
    requires v.handle in s.handles && s.handles[v.handle].Open? && v.pc.task !in s.book.owner
    requires s.core.accepting && |s.core.queue| == s.core.capacity
    ensures Inv(s.(calls := s.calls[c := v], book := s.book.Waits(v.pc.task, c)))
  {
    CallSetKeepsSound(s, c, v);
    WaitKeeps(s.core.queue, s.workers, s.calls, s.book, c, v);
    if !s.faulted {
      FallsAsleepConserved(s, c, v);
    }
  }

  lemma SubmitRefusedKeeps(s: State, task: Task, code: nat)
    requires Inv(s) && task !in s.book.owner && code != 0
    ensures Inv(Rejected(s, task, code))
  {
    RefuseKeeps(s.core.queue, s.workers, s.calls, s.book, task, code);
  }

  /** An open handle means that the constructor has returned. */
  lemma HandleMeansReady(s: State, h: nat)
    requires Sound(s) && h in s.handles
    ensures s.ctor.Ready?
  {
  }

  /** A submit that is accepted or refused at once. */
  lemma SubmitSettledKeeps(s: State, c: nat, e: CallStep, v: Verdict)
    requires Inv(s) && e.Submit? && CallEnabled(s, c, e) && v == Judge(s.core, e.block, e.from.OnWorker?) && v != Wait
    ensures Inv(CallApply(s, c, e))
  {
    if v == Accept {
      assert CallApply(s, c, e) == Enqueued(s, e.task, e.wake);
      HandleMeansReady(s, e.h);
      SubmitAcceptedKeeps(s, e.task, e.wake);
    } else {
      assert CallApply(s, c, e) == Rejected(s, e.task, Code(v));
      SubmitRefusedKeeps(s, e.task, Code(v));
    }
  }

  lemma SubmitSleepsKeeps(s: State, c: nat, e: CallStep)
    requires Inv(s) && e.Submit? && CallEnabled(s, c, e) && Judge(s.core, e.block, e.from.OnWorker?) == Wait
    ensures Inv(CallApply(s, c, e))
  {
    var v := Call(e.from, e.h, e.block, SubmitAsleep(e.task));
    assert CallApply(s, c, e) == s.(calls := s.calls[c := v], book := s.book.Waits(e.task, c));
    HandleMeansReady(s, e.h);
    SubmitWaitsKeeps(s, c, v);
  }

  lemma SubmitKeeps(s: State, c: nat, e: CallStep)
    requires Inv(s) && e.Submit? && CallEnabled(s, c, e)
    ensures Inv(CallApply(s, c, e))
  {
    var v := Judge(s.core, e.block, e.from.OnWorker?);
    if v == Wait {
      SubmitSleepsKeeps(s, c, e);
    } else {
      SubmitSettledKeeps(s, c, e, v);
    }
  }

  lemma RetryAcceptedKeepsConserved(s: State, c: nat, wake: Option<nat>)
    requires Conserved(s) && c in s.calls && s.calls[c].pc.SubmitWoken? && WorkerSignal(s, wake)
    requires !Enqueued(s.(calls := s.calls - {c}), s.calls[c].pc.task, wake).faulted
    ensures Conserved(Enqueued(s.(calls := s.calls - {c}), s.calls[c].pc.task, wake))
  {
    CallEnds(s.calls, c);
    EnqueueKeepsConserved(s.(calls := s.calls - {c}), s.calls[c].pc.task, wake);
  }

  lemma RetryAcceptedKeeps(s: State, c: nat, wake: Option<nat>)
    requires Inv(s) && s.ctor.Ready? && c in s.calls && s.calls[c].pc.SubmitWoken? && WorkerSignal(s, wake)
    requires s.core.accepting && |s.core.queue| < s.core.capacity
    ensures Inv(Enqueued(s.(calls := s.calls - {c}), s.calls[c].pc.task, wake))
  {
    var s1, task := s.(calls := s.calls - {c}), s.calls[c].pc.task;
    CallEndKeepsSound(s, c);
    EnqueueKeepsSound(s1, task, wake);
    SignalKeepsTasks(s, wake);
    WaiterEntersKeeps(s.core.queue, SignalWorker(s.workers, wake), s.calls, s.book, c);
    if !Enqueued(s1, task, wake).faulted {
      RetryAcceptedKeepsConserved(s, c, wake);
    }
  }

  lemma EndKeepsConserved(s: State, c: nat)
    requires Conserved(s) && (c in s.calls && SubmitPends(s.calls[c]) ==> !s.core.accepting)
    ensures Conserved(s.(calls := s.calls - {c}))
  {
    CallEnds(s.calls, c);
  }

  lemma RetryRefusedKeeps(s: State, c: nat, code: nat, faulted: bool)
    requires Inv(s) && c in s.calls && s.calls[c].pc.SubmitWoken? && (faulted || !s.core.accepting) && code != 0
    ensures Inv(Rejected(s.(calls := s.calls - {c}, faulted := s.faulted || faulted), s.calls[c].pc.task, code))
  {
    CallEndKeepsSound(s, c);
    WaiterRefusedKeeps(s.core.queue, s.workers, s.calls, s.book, c, code);
    if !s.faulted && !faulted {
      EndKeepsConserved(s, c);
    }
  }

  predicate MayMoveTo(s: State, was: Call, v: Call) {
    && v == was.(pc := v.pc) && SamePending(v, was)
    && (ShutSleeps(v) ==> s.core.live > 0)
    && (SubmitSleeps(v) ==> SubmitSleeps(was) || (s.core.accepting && |s.core.queue| == s.core.capacity))
  }

  lemma CallMovesKeepsConserved(s: State, c: nat, v: Call)
    requires Conserved(s) && c in s.calls && MayMoveTo(s, s.calls[c], v)
    ensures Conserved(s.(calls := s.calls[c := v]))
  {
    CallMoves(s.calls, c, v);
  }

  lemma CallHandle(cs: map<nat, Call>, hs: map<nat, HandlePc>, c: nat)
    requires CallsOpen(cs, hs) && c in cs
    ensures cs[c].handle in hs && hs[cs[c].handle].Open? && cs[c].from == External && cs[c].block
  {
  }

  /** A call already under way moves on without a task changing hands. */
  lemma CallMovesKeeps(s: State, c: nat, v: Call)
    requires Inv(s) && c in s.calls && MayMoveTo(s, s.calls[c], v)
    ensures Inv(s.(calls := s.calls[c := v]))
  {
    CallHandle(s.calls, s.handles, c);
    CallSetKeepsSound(s, c, v);
    OwnSets(s.calls, s.book.owner, c, v);
    if !s.faulted {
      CallMovesKeepsConserved(s, c, v);
    }
  }

  lemma ShutdownEndKeeps(s: State, c: nat, faulted: bool)
    requires Inv(s) && c in s.calls && !SubmitPends(s.calls[c])
    ensures Inv(s.(calls := s.calls - {c}, faulted := s.faulted || faulted))
  {
    CallEndKeepsSound(s, c);
    OwnEnds(s.calls, s.book.owner, c);
    if !s.faulted {
      EndKeepsConserved(s, c);
    }
  }

  lemma StartKeepsConserved(s: State, c: nat, v: Call)
    requires Conserved(s) && c !in s.calls && !SubmitPends(v)
    ensures Conserved(s.(calls := s.calls[c := v]))
  {
    CallMoves(s.calls, c, v);
  }

  lemma ShutdownStartKeeps(s: State, c: nat, v: Call)
    requires Inv(s) && s.ctor.Ready? && c !in s.calls && v.from == External && v.block && v.pc == ShutRelock
    requires v.handle in s.handles && s.handles[v.handle].Open?
    ensures Inv(s.(calls := s.calls[c := v]))
  {
    CallSetKeepsSound(s, c, v);
    OwnSets(s.calls, s.book.owner, c, v);
    if !s.faulted {
      StartKeepsConserved(s, c, v);
    }
  }

  lemma RetrySettledKeeps(s: State, c: nat, wake: Option<nat>, v: Verdict)
    requires Inv(s) && CallEnabled(s, c, Retry(wake)) && v == Judge(s.core, true, false) && v != Wait
    ensures Inv(CallApply(s, c, Retry(wake)))
  {
    CallHandle(s.calls, s.handles, c);
    if v == Accept {
      RetryAcceptedKeeps(s, c, wake);
    } else {
      RetryRefusedKeeps(s, c, Code(v), false);
    }
  }

  lemma RetrySleepsKeeps(s: State, c: nat, wake: Option<nat>)
    requires Inv(s) && CallEnabled(s, c, Retry(wake)) && Judge(s.core, true, false) == Wait
    ensures Inv(CallApply(s, c, Retry(wake)))
  {
    var v := s.calls[c].(pc := SubmitAsleep(s.calls[c].pc.task));
    assert CallApply(s, c, Retry(wake)) == s.(calls := s.calls[c := v]);
    CallMovesKeeps(s, c, v);
  }

  lemma RetryKeeps(s: State, c: nat, wake: Option<nat>)
    requires Inv(s) && CallEnabled(s, c, Retry(wake))
    ensures Inv(CallApply(s, c, Retry(wake)))
  {
    var v := Judge(s.core, true, false);
    if v == Wait {
      RetrySleepsKeeps(s, c, wake);
    } else {
      RetrySettledKeeps(s, c, wake, v);
    }
  }

  lemma CheckKeeps(s: State, c: nat)
    requires Inv(s) && CallEnabled(s, c, Check)
    ensures Inv(CallApply(s, c, Check))
  {
    if s.core.live != 0 {
      LiveNotNegative(s);
      CallMovesKeeps(s, c, s.calls[c].(pc := ShutAsleep));
    } else {
      ShutdownEndKeeps(s, c, false);
    }
  }

  lemma ShutdownKeeps(s: State, c: nat, from: Caller, h: nat)
    requires Inv(s) && CallEnabled(s, c, Shutdown(from, h))
    ensures Inv(CallApply(s, c, Shutdown(from, h)))
  {
    if from == External {
      HandleMeansReady(s, h);
      CloseKeeps(s);
      ShutdownStartKeeps(CloseAndWake(s).(shut := true), c, Call(from, h, true, ShutRelock));
    }
  }

  lemma SubmitErrorKeeps(s: State, c: nat)
    requires Inv(s) && CallEnabled(s, c, SubmitError)
    ensures Inv(CallApply(s, c, SubmitError))
  {
    RetryRefusedKeeps(s, c, 2, true);
  }

  lemma SubmitFailsKeeps(s: State, c: nat, e: CallStep)
    requires Inv(s) && e.SubmitFails? && CallEnabled(s, c, e)
    ensures Inv(CallApply(s, c, e))
  {
    SubmitRefusedKeeps(s, e.task, 2);
  }

  lemma SubmitSpuriousKeeps(s: State, c: nat)
    requires Inv(s) && CallEnabled(s, c, SubmitSpurious)
    ensures Inv(CallApply(s, c, SubmitSpurious))
  {
    CallMovesKeeps(s, c, WakeSubmit(s.calls[c]));
  }

  lemma ShutSpuriousKeeps(s: State, c: nat)
    requires Inv(s) && CallEnabled(s, c, ShutSpurious)
    ensures Inv(CallApply(s, c, ShutSpurious))
  {
    CallMovesKeeps(s, c, WakeShut(s.calls[c]));
  }

  lemma ShutErrorKeeps(s: State, c: nat)
    requires Inv(s) && CallEnabled(s, c, ShutError)
    ensures Inv(CallApply(s, c, ShutError))
  {
    ShutdownEndKeeps(s, c, true);
  }

  lemma CallKeeps(s: State, c: nat, e: CallStep)
    requires Inv(s) && CallEnabled(s, c, e)
    ensures Inv(CallApply(s, c, e))
  {
    match e {
      case Submit(_, _, _, _, _) => SubmitKeeps(s, c, e);
      case SubmitFails(_, _, _) => SubmitFailsKeeps(s, c, e);
      case Retry(wake) => RetryKeeps(s, c, wake);
      case SubmitSpurious => SubmitSpuriousKeeps(s, c);
      case SubmitError => SubmitErrorKeeps(s, c);
      case Check => CheckKeeps(s, c);
      case Shutdown(from, h) => ShutdownKeeps(s, c, from, h);
      case ShutSpurious => ShutSpuriousKeeps(s, c);
      case ShutError => ShutErrorKeeps(s, c);
    }
  }

  // ---- handles ----

  lemma OpenedKeepsOpen(cs: map<nat, Call>, hs: map<nat, HandlePc>, h: nat)
    requires CallsOpen(cs, hs)
    ensures CallsOpen(cs, hs[h := Open])
  {
  }

  lemma ShareKeeps(s: State, h2: nat)
    requires Inv(s) && s.ctor.Ready? && h2 !in s.handles && s.core.handles > 0
    ensures Inv(s.(core := s.core.(handles := s.core.handles + 1), refs := s.refs + 1,
                   handles := s.handles[h2 := Open]))
  {
    HandleMoves(s.handles, h2, Open);
    CountImplies(s.handles, IsOpen, HoldsRef);
    OpenedKeepsOpen(s.calls, s.handles, h2);
  }

  // A close whose broadcasts fail in part is a fault: only the wake-up claims are given up.

  lemma SilentCloseKeeps(s: State)
    requires Inv(s) && s.ctor.Ready?
    ensures Inv(s.(core := s.core.(accepting := false), shut := true, faulted := true))
  {
  }

  lemma WorkersWakeKeepsInv(s: State)
    requires Inv(s) && s.faulted
    ensures Inv(s.(workers := Each(s.workers, WakeWorker)))
  {
    WorkersWake(s.workers);
    WorkersWakeKeeps(s.core.queue, s.workers, s.calls, s.book);
  }

  lemma SubmittersWakeKeepsInv(s: State)
    requires Inv(s) && s.faulted
    ensures Inv(s.(calls := Each(s.calls, WakeSubmit)))
  {
    SubmittersWake(s.calls);
    OwnEach(s.calls, s.book.owner, WakeSubmit);
  }

  lemma CloseStepKeeps(s: State, h: nat, workersWoken: bool, submittersWoken: bool)
    requires Inv(s) && HandleEnabled(s, h, Close(workersWoken, submittersWoken))
    ensures Inv(HandleApply(s, h, Close(workersWoken, submittersWoken)))
  {
    HandleMeansReady(s, h);
    if workersWoken && submittersWoken {
      CloseKeeps(s);
    } else {
      var s1 := s.(core := s.core.(accepting := false), shut := true, faulted := true);
      SilentCloseKeeps(s);
      if workersWoken {
        WorkersWakeKeepsInv(s1);
      } else if submittersWoken {
        SubmittersWakeKeepsInv(s1);
      }
    }
  }

  /** The locked part of a finalizer, before a last handle closes the pool. */
  ghost function HandleGone(s: State, h: nat): State {
    s.(core := HandleDropped(s.core), handles := s.handles[h := Dropping])
  }

  /** The calls through other handles do not notice. */
  lemma DropKeepsOpen(cs: map<nat, Call>, hs: map<nat, HandlePc>, h: nat, p: HandlePc)
    requires CallsOpen(cs, hs) && forall c :: c in cs ==> cs[c].handle != h
    ensures CallsOpen(cs, hs[h := p])
  {
  }

  lemma HandleGoneKeepsSound(s: State, h: nat)
    requires Sound(s) && HandleEnabled(s, h, DropLock)
    ensures Sound(HandleGone(s, h))
  {
    HandleMeansReady(s, h);
    HandleMoves(s.handles, h, Dropping);
    DropKeepsOpen(s.calls, s.handles, h, Dropping);
  }

  lemma HandleGoneKeeps(s: State, h: nat)
    requires Inv(s) && HandleEnabled(s, h, DropLock)
    ensures s.ctor.Ready? && Sound(HandleGone(s, h)) && Tasks(s.core.queue, s.workers, s.calls, s.book)
    ensures HandleGone(s, h).core.handles != 0 ==> Inv(HandleGone(s, h))
  {
    HandleMeansReady(s, h);
    HandleGoneKeepsSound(s, h);
  }

  lemma DropLockKeeps(s: State, h: nat)
    requires Inv(s) && HandleEnabled(s, h, DropLock)
    ensures Inv(HandleApply(s, h, DropLock))
  {
    var s1 := HandleGone(s, h);
    HandleGoneKeeps(s, h);
    if s1.core.handles == 0 {
      CloseKeepsSound(s1);
      CloseKeepsTasks(s1);
      CloseKeepsConserved(s1);
    }
  }

  lemma ReleaseKeepsOpen(cs: map<nat, Call>, hs: map<nat, HandlePc>, h: nat, p: HandlePc)
    requires CallsOpen(cs, hs) && h in hs && !hs[h].Open?
    ensures CallsOpen(cs, hs[h := p])
  {
  }

  lemma DropReleaseKeepsSound(s: State, h: nat)
    requires Sound(s) && HandleEnabled(s, h, DropRelease)
    ensures Sound(s.(handles := s.handles[h := Released], refs := s.refs - 1, frees := s.frees + One(s.refs == 1)))
  {
    HandleMeansReady(s, h);
    HandleMoves(s.handles, h, Released);
    CountPositive(s.handles, HoldsRef);
    ReleaseKeepsOpen(s.calls, s.handles, h, Released);
  }

  lemma DropReleaseKeeps(s: State, h: nat)
    requires Inv(s) && HandleEnabled(s, h, DropRelease)
    ensures Inv(HandleApply(s, h, DropRelease))
  {
    var s1 := s.(handles := s.handles[h := Released]);
    DropReleaseKeepsSound(s, h);
    if s.refs == 1 {
      EmptyWhenUnreferenced(s1.(refs := 0, frees := s.frees + 1));
      UnrefEmpty(s1);
    } else {
      UnrefKept(s1);
    }
  }

  lemma ShareStepKeeps(s: State, h: nat, h2: nat)
    requires Inv(s) && HandleEnabled(s, h, Share(h2))
    ensures Inv(HandleApply(s, h, Share(h2)))
  {
    HandleMeansReady(s, h);
    CountPositive(s.handles, IsOpen);
    ShareKeeps(s, h2);
  }

  lemma HandleKeeps(s: State, h: nat, e: HandleStep)
    requires Inv(s) && HandleEnabled(s, h, e)
    ensures Inv(HandleApply(s, h, e))
  {
    match e {
      case Share(h2) => ShareStepKeeps(s, h, h2);
      case Close(workersWoken, submittersWoken) => CloseStepKeeps(s, h, workersWoken, submittersWoken);
      case DropLock => DropLockKeeps(s, h);
      case DropRelease => DropReleaseKeeps(s, h);
    }
  }

  // ---- every run ----

  lemma CreateHolds(workerCount: int, capacity: int)
    ensures Create(workerCount, capacity).Some? ==> Inv(Create(workerCount, capacity).value)
  {
    if Create(workerCount, capacity).Some? {
      var s := Create(workerCount, capacity).value;
      assert At(s.workers, IsLive) == {} && At(s.workers, IsUnreleased) == {} && At(s.workers, IsAsleep) == {};
      assert At(s.handles, IsOpen) == {} && At(s.handles, HoldsRef) == {};
      assert At(s.calls, SubmitSleeps) == {} && At(s.calls, ShutSleeps) == {};
    }
  }

  lemma StepKeeps(s: State, e: Event)
    requires Inv(s) && Enabled(s, e)
    ensures Inv(Apply(s, e))
  {
    match e {
      case ByCtor(step) => CtorKeeps(s, step);
      case ByWorker(w, step) => WorkerKeeps(s, w, step);
      case ByCall(c, step) => CallKeeps(s, c, step);
      case ByHandle(h, step) => HandleKeeps(s, h, step);
    }
  }

  lemma {:induction false} RunKeeps(s: State, es: seq<Event>)
    requires Inv(s) && Possible(s, es)
    ensures Inv(After(s, es))
    decreases |es|
  {
    if es != [] {
      StepKeeps(s, es[0]);
      RunKeeps(Apply(s, es[0]), es[1..]);
    }
  }
}
