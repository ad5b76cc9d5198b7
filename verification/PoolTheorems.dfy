/** What the invariant means for the users of the pool, over every run of every pool. */
module PoolTheorems {
  import opened Threads
  import opened PoolCores
  import opened Pools
  import opened PoolInvariants
  import opened PoolProofs

  /** A state some run of some pool reaches. */
  ghost predicate Reachable(s: State) {
    exists workerCount: int, capacity: int, es: seq<Event> ::
      && Create(workerCount, capacity).Some?
      && Possible(Create(workerCount, capacity).value, es)
      && s == After(Create(workerCount, capacity).value, es)
  }

  lemma ReachableHolds(s: State)
    requires Reachable(s)
    ensures Inv(s)
  {
    var workerCount: int, capacity: int, es: seq<Event> :|
      && Create(workerCount, capacity).Some?
      && Possible(Create(workerCount, capacity).value, es)
      && s == After(Create(workerCount, capacity).value, es);
    CreateHolds(workerCount, capacity);
    RunKeeps(Create(workerCount, capacity).value, es);
  }

  // ---- no wake-up is lost ----

  /** A sleeping worker or submitter means that enough others are already on their way. */
  lemma WorkConservation(s: State)
    requires Reachable(s) && !s.faulted
    ensures (exists w :: w in s.workers && s.workers[w].Asleep?) ==> Count(s.workers, IsFetching) >= |s.core.queue|
    ensures (exists c :: c in s.calls && s.calls[c].pc.SubmitAsleep?) ==>
              Count(s.calls, SubmitIsWoken) >= s.core.capacity - |s.core.queue|
    ensures !s.core.accepting ==>
              && (forall w :: w in s.workers ==> !s.workers[w].Asleep?)
              && (forall c :: c in s.calls ==> !s.calls[c].pc.SubmitAsleep?)
  {
    ReachableHolds(s);
    CountPositive(s.workers, IsAsleep);
    CountPositive(s.calls, SubmitSleeps);
    assert forall w :: w in s.workers && s.workers[w].Asleep? ==> IsAsleep(s.workers[w]);
    assert forall c :: c in s.calls && s.calls[c].pc.SubmitAsleep? ==> SubmitSleeps(s.calls[c]);
  }

  /** Whoever waits for the workers to stop is awake once the last one has left its loop. */
  lemma StopIsNoticed(s: State)
    requires Reachable(s) && s.core.live == 0
    ensures !s.ctor.RollAsleep? && forall c :: c in s.calls ==> !s.calls[c].pc.ShutAsleep?
  {
    ReachableHolds(s);
    CountPositive(s.calls, ShutSleeps);
  }

  // ---- shutdown drains ----

  predicate InShutdown(c: Call) { c.pc.ShutRelock? || c.pc.ShutAsleep? || c.pc.ShutWoken? }

  /** A call of `shutdown` returns in the step `e`, and not with an error of the OS: result 0, status 0. */
  ghost predicate ShutdownReturns(s: State, e: Event, c: nat) {
    && c in s.calls && InShutdown(s.calls[c]) && Enabled(s, e)
    && c !in Apply(s, e).calls && e != ByCall(c, ShutError)
  }

  lemma CtorEndsNoCall(s: State, e: CtorStep, c: nat)
    requires CtorEnabled(s, e) && c in s.calls
    ensures c in CtorApply(s, e).calls
  {
  }

  lemma WorkerEndsNoCall(s: State, w: nat, e: WorkerStep, c: nat)
    requires WorkerEnabled(s, w, e) && c in s.calls
    ensures c in WorkerApply(s, w, e).calls
  {
  }

  lemma HandleEndsNoCall(s: State, h: nat, e: HandleStep, c: nat)
    requires HandleEnabled(s, h, e) && c in s.calls
    ensures c in HandleApply(s, h, e).calls
  {
  }

  lemma CallEndsItself(s: State, d: nat, e: CallStep, c: nat)
    requires CallEnabled(s, d, e) && c in s.calls && InShutdown(s.calls[c])
    ensures c !in CallApply(s, d, e).calls ==> d == c && (e == ShutError || (e == Check && s.core.live == 0))
  {
    if d != c {
      OthersGoOn(s, d, e, c);
    }
  }

  lemma OthersGoOn(s: State, d: nat, e: CallStep, c: nat)
    requires CallEnabled(s, d, e) && c in s.calls && d != c
    ensures c in CallApply(s, d, e).calls
  {
    if e.Submit? || e.Retry? {
      SubmittersLeaveOthers(s, d, e, c);
    }
  }

  lemma SubmittersLeaveOthers(s: State, d: nat, e: CallStep, c: nat)
    requires CallEnabled(s, d, e) && c in s.calls && d != c && (e.Submit? || e.Retry?)
    ensures c in CallApply(s, d, e).calls
  {
  }

  /** The only way for that to happen. */
  lemma ReturnsWhenStopped(s: State, e: Event, c: nat)
    requires ShutdownReturns(s, e, c)
    ensures e == ByCall(c, Check) && s.core.live == 0
  {
    match e {
      case ByCtor(step) => CtorEndsNoCall(s, step, c);
      case ByWorker(w, step) => WorkerEndsNoCall(s, w, step, c);
      case ByCall(d, step) => CallEndsItself(s, d, step, c);
      case ByHandle(h, step) => HandleEndsNoCall(s, h, step, c);
    }
  }

  lemma AllLeft(s: State)
    requires Sound(s) && s.core.live == 0 && s.ctor.Ready?
    ensures s.core.queue == [] && !s.core.accepting
    ensures forall w :: w in s.workers ==> s.workers[w].Exiting? || s.workers[w].Exited?
  {
    CountPositive(s.workers, IsLive);
    assert s.workers.Keys != {};
    var w :| w in s.workers;
    assert !IsLive(s.workers[w]);
  }

  /** With nothing queued and nobody working, the books are closed. */
  lemma BooksClosed(q: seq<Task>, ws: map<nat, WorkerPc>, cs: map<nat, Call>, b: Book, k: Task)
    requires Tasks(q, ws, cs, b) && q == [] && k in b.owner
    requires forall w :: w in ws ==> ws[w].Exiting? || ws[w].Exited?
    ensures k in b.accepted ==> b.called[k] == 1 && b.released[k] == 1
    ensures b.owner[k].Refused? ==> b.called[k] == 0 && b.released[k] == 1
  {
    assert k in b.accepted <==> multiset(b.accepted)[k] > 0;
  }

  /** Whenever a shutdown returns with status 0, the pool is closed, stopped and drained. */
  lemma ShutdownDrains(s: State, e: Event, c: nat)
    requires Reachable(s) && ShutdownReturns(s, e, c)
    ensures s.core.live == 0 && s.core.queue == [] && !s.core.accepting
    ensures forall w :: w in s.workers ==> s.workers[w].Exiting? || s.workers[w].Exited?
    ensures forall k :: k in s.book.accepted ==> s.book.called[k] == 1 && s.book.released[k] == 1
    ensures s.book.taken == s.book.accepted
    ensures forall k :: k in s.book.owner && s.book.owner[k].Refused? ==>
              s.book.called[k] == 0 && s.book.released[k] == 1
  {
    ReachableHolds(s);
    ReturnsWhenStopped(s, e, c);
    AllLeft(s);
    AllBooksClosed(s.core.queue, s.workers, s.calls, s.book);
  }

  lemma AllBooksClosed(q: seq<Task>, ws: map<nat, WorkerPc>, cs: map<nat, Call>, b: Book)
    requires Tasks(q, ws, cs, b) && q == []
    requires forall w :: w in ws ==> ws[w].Exiting? || ws[w].Exited?
    ensures b.taken == b.accepted
    ensures forall k :: k in b.accepted ==> b.called[k] == 1 && b.released[k] == 1
    ensures forall k :: k in b.owner && b.owner[k].Refused? ==> b.called[k] == 0 && b.released[k] == 1
  {
    assert b.taken + [] == b.taken;
    forall k | k in b.owner
      ensures k in b.accepted ==> b.called[k] == 1 && b.released[k] == 1
      ensures b.owner[k].Refused? ==> b.called[k] == 0 && b.released[k] == 1
    {
      BooksClosed(q, ws, cs, b, k);
    }
    AcceptedOwned(b);
  }

  lemma AcceptedOwned(b: Book)
    requires Balanced(b)
    ensures forall k :: k in b.accepted ==> k in b.owner
  {
    assert forall k :: k in b.accepted <==> multiset(b.accepted)[k] > 0;
  }

  /** The workers that have taken `k` and not finished it, and the calls that wait with it. */
  function WorksOn(k: Task): WorkerPc -> bool { p => p == Taken(k) || p == Running(k) }
  function WaitsWith(k: Task): Call -> bool { c => SubmitPends(c) && c.pc.task == k }

  lemma Holders(ws: map<nat, WorkerPc>, cs: map<nat, Call>, owner: map<Task, Owner>, k: Task)
    requires WorkersOwn(ws, owner) && CallsOwn(cs, owner) && k in owner
    ensures Count(ws, WorksOn(k)) == One(owner[k].WithWorker?) && Count(cs, WaitsWith(k)) == One(owner[k].InCall?)
  {
    assert At(ws, WorksOn(k)) == if owner[k].WithWorker? then {owner[k].w} else {};
    assert At(cs, WaitsWith(k)) == if owner[k].InCall? then {owner[k].c} else {};
  }

  lemma QueuedOnce(q: seq<Task>, owner: map<Task, Owner>, k: Task)
    requires QueueOwns(q, owner)
    ensures multiset(q)[k] == One(k in owner && owner[k] == InQueue)
  {
    Distinct(q, k);
  }

  lemma {:induction false} Distinct(q: seq<Task>, k: Task)
    requires forall i, j :: 0 <= i < j < |q| ==> q[i] != q[j]
    ensures multiset(q)[k] == One(k in q)
  {
    if q != [] {
      Distinct(q[1..], k);
      assert q == [q[0]] + q[1..];
    }
  }

  /** Every task ever submitted is in one place: with one waiting call, queued once, with one worker, or released. */
  lemma TaskPlaced(s: State, k: Task)
    requires Reachable(s) && k in s.book.owner
    ensures Count(s.calls, WaitsWith(k)) + multiset(s.core.queue)[k] + Count(s.workers, WorksOn(k))
            + s.book.released[k] == 1
  {
    ReachableHolds(s);
    Holders(s.workers, s.calls, s.book.owner, k);
    QueuedOnce(s.core.queue, s.book.owner, k);
  }

  /** A task is accepted and called at most once, is released only after its call, and is never called if refused. */
  lemma TaskOnce(s: State, k: Task)
    requires Reachable(s)
    ensures s.book.called[k] <= multiset(s.book.accepted)[k] <= 1
    ensures (exists w :: w in s.workers && s.workers[w] == Running(k)) ==>
              s.book.released[k] == 0 && s.book.called[k] == 1
    ensures s.book.released[k] == 1 && k in s.book.accepted ==> s.book.called[k] == 1
    ensures k in s.book.owner && s.book.owner[k].Refused? ==> s.book.called[k] == 0 && k !in s.book.accepted
    ensures s.book.accepted == s.book.taken + s.core.queue
  {
    ReachableHolds(s);
    Balance(s.book, k);
    RunningOwner(s.workers, s.book.owner, k);
  }

  lemma Balance(b: Book, k: Task)
    requires Balanced(b)
    ensures b.called[k] <= multiset(b.accepted)[k] <= 1
    ensures b.released[k] == 1 && k in b.accepted ==> b.called[k] == 1
    ensures k in b.owner && b.owner[k].Refused? ==> b.called[k] == 0 && k !in b.accepted
    ensures forall w :: k in b.owner && b.owner[k] == WithWorker(w, true) ==> b.released[k] == 0 && b.called[k] == 1
  {
    assert k in b.accepted <==> multiset(b.accepted)[k] > 0;
  }

  lemma RunningOwner(ws: map<nat, WorkerPc>, owner: map<Task, Owner>, k: Task)
    requires WorkersOwn(ws, owner)
    ensures forall w :: w in ws && ws[w] == Running(k) ==> k in owner && owner[k] == WithWorker(w, true)
  {
  }

  /**
    A submit returns once, and returns 0 if and only if its task was accepted. A task whose submit
    returned anything else is never called and has been released once.
   */
  lemma ZeroMeansAccepted(s: State, k: Task, code: nat)
    requires Reachable(s)
    ensures s.book.log[Outcome(k, 0)] == multiset(s.book.accepted)[k] <= 1
    ensures code != 0 && Outcome(k, code) in s.book.log ==>
              s.book.log[Outcome(k, code)] == 1 && s.book.log[Outcome(k, 0)] == 0
              && s.book.called[k] == 0 && s.book.released[k] == 1
  {
    ReachableHolds(s);
    LogTells(s.book, k, code);
  }

  lemma LogTells(b: Book, k: Task, code: nat)
    requires Balanced(b)
    ensures b.log[Outcome(k, 0)] == multiset(b.accepted)[k] <= 1
    ensures code != 0 && Outcome(k, code) in b.log ==>
              b.log[Outcome(k, code)] == 1 && b.log[Outcome(k, 0)] == 0 && b.called[k] == 0 && b.released[k] == 1
  {
    var zero, other := Outcome(k, 0), Outcome(k, code);
    assert b.log[zero] == One(k in b.owner && ReturnedCode(b.owner[k]) == Some(0));
    assert b.log[other] == One(k in b.owner && ReturnedCode(b.owner[k]) == Some(code));
  }

  /** A freed pool, however it was closed, has called every accepted task once and released every task once. */
  lemma FreedDrained(s: State, k: Task)
    requires Reachable(s) && s.frees == 1 && k in s.book.owner
    ensures s.book.released[k] == 1 && (k in s.book.accepted ==> s.book.called[k] == 1)
  {
    ReachableHolds(s);
    EmptyWhenUnreferenced(s);
    Unused(s);
    TaskPlaced(s, k);
    TaskOnce(s, k);
  }

  lemma Unused(s: State)
    requires Sound(s) && s.refs == 0
    ensures s.calls == map[] && forall w :: w in s.workers ==> s.workers[w].Exited?
    ensures forall k :: Count(s.calls, WaitsWith(k)) == 0 && Count(s.workers, WorksOn(k)) == 0
  {
    CountPositive(s.handles, HoldsRef);
    CountPositive(s.workers, IsUnreleased);
    assert forall c :: c in s.calls ==> HoldsRef(s.handles[s.calls[c].handle]);
    assert forall w :: w in s.workers && !s.workers[w].Exited? ==> IsUnreleased(s.workers[w]);
    forall k ensures Count(s.calls, WaitsWith(k)) == 0 && Count(s.workers, WorksOn(k)) == 0 {
      CountPositive(s.calls, WaitsWith(k));
      CountPositive(s.workers, WorksOn(k));
    }
  }

  /** The pool is still closed in `t`, and neither a task nor an unwoken worker came in. */
  ghost predicate StillClosed(s: State, t: State) {
    && !t.core.accepting && t.book.accepted == s.book.accepted
    && t.core.queue == s.core.queue && (t.workers == s.workers || t.workers == Each(s.workers, WakeWorker))
  }

  lemma CtorStaysClosed(s: State, e: CtorStep)
    requires Closing(s.core, s.ctor) && CtorEnabled(s, e) && !s.core.accepting
    ensures StillClosed(s, CtorApply(s, e))
  {
  }

  lemma SubmitStaysClosed(s: State, c: nat, e: CallStep)
    requires CallEnabled(s, c, e) && !s.core.accepting && (e.Submit? || e.Retry?)
    ensures StillClosed(s, CallApply(s, c, e))
  {
  }

  lemma CallStaysClosed(s: State, c: nat, e: CallStep)
    requires CallEnabled(s, c, e) && !s.core.accepting
    ensures StillClosed(s, CallApply(s, c, e))
  {
    if e.Submit? || e.Retry? {
      SubmitStaysClosed(s, c, e);
    }
  }

  lemma DropStaysClosed(s: State, h: nat, e: HandleStep)
    requires HandleEnabled(s, h, e) && !s.core.accepting && (e.DropLock? || e.DropRelease?)
    ensures StillClosed(s, HandleApply(s, h, e))
  {
  }

  lemma HandleStaysClosed(s: State, h: nat, e: HandleStep)
    requires HandleEnabled(s, h, e) && !s.core.accepting
    ensures StillClosed(s, HandleApply(s, h, e))
  {
    if e.DropLock? || e.DropRelease? {
      DropStaysClosed(s, h, e);
    }
  }

  lemma OthersStayClosed(s: State, e: Event)
    requires Inv(s) && Enabled(s, e) && !s.core.accepting && !e.ByWorker?
    ensures StillClosed(s, Apply(s, e))
  {
    match e {
      case ByCtor(step) => CtorStaysClosed(s, step);
      case ByCall(c, step) => CallStaysClosed(s, c, step);
      case ByHandle(h, step) => HandleStaysClosed(s, h, step);
    }
  }

  lemma WorkerStaysClosed(s: State, w: nat, e: WorkerStep)
    requires WorkerEnabled(s, w, e) && !s.core.accepting
    ensures var t := WorkerApply(s, w, e); !t.core.accepting && t.book.accepted == s.book.accepted
  {
  }

  /** A closed pool stays closed and accepts nothing more. */
  lemma ClosedIsFinal(s: State, e: Event)
    requires Inv(s) && Enabled(s, e) && !s.core.accepting
    ensures !Apply(s, e).core.accepting && Apply(s, e).book.accepted == s.book.accepted
  {
    if e.ByWorker? {
      WorkerStaysClosed(s, e.w, e.worker);
    } else {
      OthersStayClosed(s, e);
    }
  }

  lemma {:induction false} ClosedForever(s: State, es: seq<Event>)
    requires Inv(s) && Possible(s, es) && !s.core.accepting
    ensures !After(s, es).core.accepting && After(s, es).book.accepted == s.book.accepted
    decreases |es|
  {
    if es != [] {
      ClosedIsFinal(s, es[0]);
      StepKeeps(s, es[0]);
      ClosedForever(Apply(s, es[0]), es[1..]);
    }
  }

  // ---- the core is freed once ----

  /** The core is freed when the last of constructor, handles and workers lets go, and never used again. */
  lemma FreedOnce(s: State)
    requires Reachable(s)
    ensures s.refs == Count(s.workers, IsUnreleased) + Count(s.handles, HoldsRef) + CtorRefs(s.ctor)
    ensures s.frees <= 1 && (s.frees == 1 <==> s.refs == 0)
    ensures s.frees == 1 ==> s.core.queue == []
    ensures forall e :: Enabled(s, e) ==> s.frees == 0
  {
    ReachableHolds(s);
    EmptyWhenUnreferenced(s);
    forall e | Enabled(s, e) ensures s.frees == 0 {
      NoAccessAfterFree(s, e);
    }
  }

  lemma HandleMeansAlive(s: State, h: nat)
    requires Sound(s) && h in s.handles && HoldsRef(s.handles[h])
    ensures s.frees == 0
  {
    CountPositive(s.handles, HoldsRef);
  }

  lemma WorkerMeansAlive(s: State, w: nat)
    requires Sound(s) && w in s.workers && IsUnreleased(s.workers[w])
    ensures s.frees == 0
  {
    CountPositive(s.workers, IsUnreleased);
  }

  lemma NoAccessAfterFree(s: State, e: Event)
    requires Inv(s) && Enabled(s, e)
    ensures s.frees == 0
  {
    match e {
      case ByCtor(_) =>
      case ByWorker(w, _) => WorkerMeansAlive(s, w);
      case ByCall(c, step) =>
        if c in s.calls {
          CallHandle(s.calls, s.handles, c);
          HandleMeansAlive(s, s.calls[c].handle);
        } else {
          HandleMeansAlive(s, step.h);
        }
      case ByHandle(h, _) => HandleMeansAlive(s, h);
    }
  }

  /** The finalizer never meets an exhausted handle count, so it never aborts there. */
  lemma FinalizerCountsDown(s: State, h: nat)
    requires Reachable(s) && HandleEnabled(s, h, DropLock)
    ensures s.core.handles > 0
  {
    ReachableHolds(s);
    CountPositive(s.handles, IsOpen);
    assert IsOpen(s.handles[h]);
  }

  // ---- a worker never blocks its own pool ----

  lemma NoSelfDeadlock(s: State)
    requires Reachable(s)
    ensures forall c :: c in s.calls ==> s.calls[c].from == External
  {
    ReachableHolds(s);
  }

  // ---- shutdown terminates ----

  predicate IsTaken(p: WorkerPc) { p.Taken? }
  predicate IsRunning(p: WorkerPc) { p.Running? }
  predicate IsExiting(p: WorkerPc) { p.Exiting? }

  ghost function Effort(ws: map<nat, WorkerPc>): nat {
    Count(ws, IsExiting) + 2 * Count(ws, IsFetching) + 3 * Count(ws, IsAsleep)
    + 3 * Count(ws, IsRunning) + 4 * Count(ws, IsTaken)
  }

  /** What is left to do for the workers of a closed pool. */
  ghost function Work(s: State): nat {
    3 * |s.core.queue| + Effort(s.workers)
  }

  function Weight(p: WorkerPc): nat {
    match p
    case Exited => 0
    case Exiting => 1
    case Fetching => 2
    case Asleep | Running(_) => 3
    case Taken(_) => 4
  }

  lemma EffortMoves(ws: map<nat, WorkerPc>, w: nat, p: WorkerPc)
    requires w in ws
    ensures Effort(ws[w := p]) == Effort(ws) - Weight(ws[w]) + Weight(p)
  {
    CountPut(ws, w, p, IsExiting);
    CountPut(ws, w, p, IsFetching);
    CountPut(ws, w, p, IsAsleep);
    CountPut(ws, w, p, IsRunning);
    CountPut(ws, w, p, IsTaken);
  }

  lemma EffortWakes(ws: map<nat, WorkerPc>)
    ensures Effort(Each(ws, WakeWorker)) <= Effort(ws)
  {
    WorkersWake(ws);
    CountEach(ws, WakeWorker, IsExiting, IsExiting);
    CountEach(ws, WakeWorker, IsRunning, IsRunning);
    CountEach(ws, WakeWorker, IsTaken, IsTaken);
  }

  /** After a close every worker step does some of the work, and nothing else adds to it. */
  lemma WorkFalls(s: State, e: Event)
    requires Inv(s) && Enabled(s, e) && !s.core.accepting
    ensures Work(Apply(s, e)) + (if e.ByWorker? then 1 else 0) <= Work(s)
  {
    if e.ByWorker? {
      WorkerWorkFalls(s, e.w, e.worker);
    } else {
      OthersStayClosed(s, e);
      EffortWakes(s.workers);
    }
  }

  lemma WorkerWorkFalls(s: State, w: nat, e: WorkerStep)
    requires WorkerEnabled(s, w, e) && !s.core.accepting
    ensures Work(WorkerApply(s, w, e)) < Work(s)
  {
    match e {
      case Lock(wake) => EffortMoves(s.workers, w, PcAfterLock(WorkerTurn(s.core)));
      case Spurious => EffortMoves(s.workers, w, Fetching);
      case CallTask => EffortMoves(s.workers, w, Running(s.workers[w].task));
      case Return => EffortMoves(s.workers, w, Fetching);
      case Release => EffortMoves(s.workers, w, Exited);
    }
  }

  ghost function WorkerSteps(es: seq<Event>): nat {
    if es == [] then 0 else (if es[0].ByWorker? then 1 else 0) + WorkerSteps(es[1..])
  }

  /** However the run goes on, a closed pool takes at most `Work(s)` more worker steps. */
  lemma {:induction false} BoundedWork(s: State, es: seq<Event>)
    requires Inv(s) && Possible(s, es) && !s.core.accepting
    ensures WorkerSteps(es) + Work(After(s, es)) <= Work(s)
    decreases |es|
  {
    if es != [] {
      WorkFalls(s, es[0]);
      StepKeeps(s, es[0]);
      ClosedIsFinal(s, es[0]);
      BoundedWork(Apply(s, es[0]), es[1..]);
    }
  }

  /** As long as a worker of a closed pool is live, one of them can go on without being woken. */
  lemma NextWorkerStep(s: State) returns (w: nat, e: WorkerStep)
    requires Inv(s) && !s.faulted && !s.core.accepting && s.core.live > 0
    ensures !e.Spurious? && WorkerEnabled(s, w, e) && !WorkerApply(s, w, e).faulted
  {
    CountPositive(s.workers, IsLive);
    CountPositive(s.workers, IsAsleep);
    w :| w in s.workers && IsLive(s.workers[w]);
    e := if s.workers[w].Fetching? then Lock(None) else if s.workers[w].Taken? then CallTask else Return;
  }

  /** A run of workers only that brings the pool to a stop, within `Work(s)` steps. */
  ghost predicate Finishes(s: State, es: seq<Event>) {
    && Possible(s, es) && |es| <= Work(s) && (forall i :: 0 <= i < |es| ==> es[i].ByWorker?)
    && After(s, es).core.live == 0 && After(s, es).core.queue == []
  }

  /** From any closed state the workers alone can bring the pool to a stop. */
  lemma {:induction false} ShutdownCanFinish(s: State) returns (es: seq<Event>)
    requires Inv(s) && !s.faulted && !s.core.accepting
    ensures Finishes(s, es)
    decreases Work(s)
  {
    if s.core.live == 0 {
      EmptyWhenStopped(s);
      es := [];
    } else {
      var w, e := NextWorkerStep(s);
      StepStaysClosed(s, w, e);
      var rest := ShutdownCanFinish(WorkerApply(s, w, e));
      FinishesFrom(s, w, e, rest);
      es := [ByWorker(w, e)] + rest;
    }
  }

  lemma FinishesFrom(s: State, w: nat, e: WorkerStep, rest: seq<Event>)
    requires WorkerEnabled(s, w, e) && Work(WorkerApply(s, w, e)) < Work(s) && Finishes(WorkerApply(s, w, e), rest)
    ensures Finishes(s, [ByWorker(w, e)] + rest)
  {
    Prepend(s, ByWorker(w, e), rest);
  }

  lemma StepStaysClosed(s: State, w: nat, e: WorkerStep)
    requires Inv(s) && WorkerEnabled(s, w, e) && !s.core.accepting
    ensures Inv(WorkerApply(s, w, e)) && !WorkerApply(s, w, e).core.accepting && Work(WorkerApply(s, w, e)) < Work(s)
  {
    WorkerKeeps(s, w, e);
    WorkerWorkFalls(s, w, e);
    WorkerStaysClosed(s, w, e);
  }

  lemma Prepend(s: State, e: Event, es: seq<Event>)
    requires Enabled(s, e) && Possible(Apply(s, e), es)
    ensures Possible(s, [e] + es) && After(s, [e] + es) == After(Apply(s, e), es)
  {
    assert ([e] + es)[1..] == es;
  }

  lemma EmptyWhenStopped(s: State)
    requires Inv(s) && !s.core.accepting && s.core.live == 0
    ensures s.core.queue == []
  {
    if s.ctor.Ready? {
      assert s.workers.Keys != {};
      var w :| w in s.workers;
      CountPositive(s.workers, IsLive);
    }
  }

  /** When no work is left, no worker is live and the queue is empty: shutdown can return. */
  lemma NoWorkLeft(s: State)
    requires Reachable(s) && !s.core.accepting && Work(s) == 0
    ensures s.core.live == 0 && s.core.queue == []
  {
    ReachableHolds(s);
    forall w | w in s.workers ensures !IsLive(s.workers[w]) {
      CountPositive(s.workers, IsFetching);
      CountPositive(s.workers, IsAsleep);
      CountPositive(s.workers, IsTaken);
      CountPositive(s.workers, IsRunning);
    }
    CountPositive(s.workers, IsLive);
  }
}
