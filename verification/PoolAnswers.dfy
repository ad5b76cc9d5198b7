/**
  What each step of the thread pool answers, said of the bounded queue that its users see and of the
  history, not of the tests the code makes.
 */
module PoolAnswers {
  import opened Threads
  import opened PoolCores
  import opened Pools
  import opened PoolInvariants
  import opened PoolProofs
  import opened PoolTheorems

  /** The pool is created for exactly the arguments in range, as asked. */
  lemma CreateAnswers(workerCount: int, capacity: int)
    ensures var r := Create(workerCount, capacity);
      && (r.Some? <==> 1 <= workerCount <= 64 && 1 <= capacity <= 16384)
      && (r.Some? ==> r.value.target == workerCount && ModelOf(r.value.core) == Model(capacity, [], true))
  {
  }

  // ---- submits ----

  /** The submit returns with `r`: it is logged, and nobody waits for it. */
  ghost predicate Answered(s: State, t: State, task: Task, r: SubmitResult) {
    t.book.log == s.book.log + multiset{Outcome(task, NativeCode(r))}
  }

  /**
    A pass of the submit that would sleep as `v` waits if and only if it is blocking, not on a worker,
    and the queue is open and full. Otherwise it returns what the model says, and leaves the queue that
    the model says.
   */
  ghost predicate Settled(s: State, t: State, c: nat, v: Call)
    requires v.pc.SubmitAsleep?
  {
    var m, task := ModelOf(s.core), v.pc.task;
    if MustWait(m, task, v.block, v.from.OnWorker?) then
      t.calls == s.calls[c := v] && t.core == s.core && t.book.log == s.book.log
    else
      && t.calls == s.calls - {c} && Answered(s, t, task, Told(m, task, v.block))
      && ModelOf(t.core) == ModelSubmit(m, task).1
  }

  lemma SubmitAnswers(s: State, c: nat, e: CallStep)
    requires Reachable(s) && e.Submit? && CallEnabled(s, c, e)
    ensures Settled(s, CallApply(s, c, e), c, Call(e.from, e.h, e.block, SubmitAsleep(e.task)))
  {
    ReachableHolds(s);
    SubmitPass(s, c, e);
  }

  lemma SubmitPass(s: State, c: nat, e: CallStep)
    requires |s.core.queue| <= s.core.capacity && e.Submit? && CallEnabled(s, c, e)
    ensures Settled(s, CallApply(s, c, e), c, Call(e.from, e.h, e.block, SubmitAsleep(e.task)))
  {
    var v := Judge(s.core, e.block, e.from.OnWorker?);
    SubmitMatchesModel(s.core, e.task, e.block, e.from.OnWorker?);
    assert s.calls - {c} == s.calls;
    if v == Accept {
      assert CallApply(s, c, e) == Enqueued(s, e.task, e.wake);
    } else if v != Wait {
      assert CallApply(s, c, e) == Rejected(s, e.task, Code(v));
    }
  }

  /** A submit that had waited looks again. */
  lemma RetryAnswers(s: State, c: nat, wake: Option<nat>)
    requires Reachable(s) && CallEnabled(s, c, Retry(wake))
    ensures Settled(s, CallApply(s, c, Retry(wake)), c, s.calls[c].(pc := SubmitAsleep(s.calls[c].pc.task)))
  {
    ReachableHolds(s);
    CallHandle(s.calls, s.handles, c);
    RetryPass(s, c, wake);
  }

  lemma RetryPass(s: State, c: nat, wake: Option<nat>)
    requires |s.core.queue| <= s.core.capacity && CallEnabled(s, c, Retry(wake))
    requires s.calls[c].block && s.calls[c].from == External
    ensures Settled(s, CallApply(s, c, Retry(wake)), c, s.calls[c].(pc := SubmitAsleep(s.calls[c].pc.task)))
  {
    var v, task, s1 := Judge(s.core, true, false), s.calls[c].pc.task, s.(calls := s.calls - {c});
    SubmitMatchesModel(s.core, task, true, false);
    if v == Accept {
      assert CallApply(s, c, Retry(wake)) == Enqueued(s1, task, wake);
    } else if v != Wait {
      assert CallApply(s, c, Retry(wake)) == Rejected(s1, task, Code(v));
    }
  }

  /** With an error of the OS a submit is told that the pool is closed, and nothing is queued. */
  lemma SubmitErrorAnswers(s: State, c: nat, e: CallStep)
    requires CallEnabled(s, c, e) && (e.SubmitFails? || e.SubmitError?)
    ensures var t := CallApply(s, c, e);
      && t.core == s.core && c !in t.calls && t.calls == s.calls - {c}
      && Answered(s, t, if e.SubmitFails? then e.task else s.calls[c].pc.task, PoolClosed)
  {
    assert c !in s.calls ==> s.calls - {c} == s.calls;
  }

  /** Only blocking calls of threads outside the pool ever wait. */
  lemma OnlyBlockingWait(s: State, c: nat)
    requires Reachable(s) && c in s.calls
    ensures s.calls[c].block && s.calls[c].from == External
  {
    ReachableHolds(s);
  }

  // ---- workers ----

  /** A worker takes the oldest task; finding none it sleeps while the pool is open and leaves a closed one. */
  lemma WorkerAnswers(s: State, w: nat, wake: Option<nat>)
    requires WorkerEnabled(s, w, Lock(wake))
    ensures var t := WorkerApply(s, w, Lock(wake));
      && (s.core.queue != [] ==>
            && t.workers == s.workers[w := Taken(s.core.queue[0])] && [s.core.queue[0]] + t.core.queue == s.core.queue
            && t.core.live == s.core.live)
      && (s.core.queue == [] && s.core.accepting ==> t.workers == s.workers[w := Asleep] && t.core == s.core)
      && (s.core.queue == [] && !s.core.accepting ==>
            t.workers == s.workers[w := Exiting] && t.core == s.core.(live := s.core.live - 1))
  {
  }

  /** What a worker has taken it calls, and what it has called it releases. */
  lemma TaskAnswers(s: State, w: nat, k: Task)
    requires w in s.workers
    ensures s.workers[w] == Taken(k) ==>
              && WorkerEnabled(s, w, CallTask)
              && WorkerApply(s, w, CallTask).workers[w] == Running(k)
              && WorkerApply(s, w, CallTask).book.called == s.book.called + multiset{k}
    ensures s.workers[w] == Running(k) && WorkerEnabled(s, w, Return) ==>
              && WorkerApply(s, w, Return).workers[w] == Fetching
              && WorkerApply(s, w, Return).book.released == s.book.released + multiset{k}
  {
  }

  // ---- closing ----

  /** A pool is open exactly as long as nobody has closed it and a handle is left. */
  lemma OpenUntilClosed(s: State)
    requires Reachable(s) && s.ctor.Ready?
    ensures s.core.accepting <==> !s.shut && exists h :: h in s.handles && s.handles[h].Open?
  {
    ReachableHolds(s);
    CountPositive(s.handles, IsOpen);
  }

  /** Close, and a shutdown from outside, close the pool; a worker's shutdown is refused and changes nothing. */
  lemma CloseAnswers(s: State, h: nat, c: nat, from: Caller)
    requires CallEnabled(s, c, Shutdown(from, h))
    ensures forall a, b :: HandleEnabled(s, h, Close(a, b)) && !HandleApply(s, h, Close(a, b)).core.accepting
                           && HandleApply(s, h, Close(a, b)).shut
    ensures var t := CallApply(s, c, Shutdown(from, h));
      if from.OnWorker? then t == s
      else !t.core.accepting && t.shut && c in t.calls && InShutdown(t.calls[c]) && t.core.queue == s.core.queue
  {
  }

  /** A test of the workers ends the shutdown if and only if none is live, and otherwise sends it to sleep. */
  lemma CheckAnswers(s: State, c: nat)
    requires CallEnabled(s, c, Check)
    ensures CallApply(s, c, Check).calls ==
            if s.core.live == 0 then s.calls - {c} else s.calls[c := s.calls[c].(pc := ShutAsleep)]
    ensures CallApply(s, c, Check).core == s.core
  {
  }

  // ---- the constructor ----

  /** A constructor that returns a pool has started all its workers; one that gives up has stopped them all. */
  lemma ConstructorAnswers(s: State)
    requires Reachable(s)
    ensures s.ctor.Ready? ==> |s.workers| == s.target
    ensures s.ctor.RollFree? || s.ctor.Failed? ==>
              s.core.live == 0 && forall w :: w in s.workers ==> s.workers[w].Exiting? || s.workers[w].Exited?
    ensures s.ctor.Failed? ==> s.handles == map[] && s.core.queue == []
    ensures CtorEnabled(s, RollbackCheck) ==> (CtorApply(s, RollbackCheck).ctor.RollFree? <==> s.core.live == 0)
  {
    ReachableHolds(s);
    CountPositive(s.workers, IsLive);
  }

  // ---- handles ----

  /** A handle is shared unless INT32_MAX of them are open. */
  lemma ShareAnswers(s: State, h: nat, h2: nat)
    requires Reachable(s) && HandleEnabled(s, h, Share(h2))
    ensures var t := HandleApply(s, h, Share(h2));
      if Count(s.handles, IsOpen) == INT32_MAX then t == s
      else t.handles == s.handles[h2 := Open] && t.core.accepting == s.core.accepting
  {
    ReachableHolds(s);
    HandleMeansReady(s, h);
  }

  // ---- faults and progress ----

  /** The OS calls of a step that report an error. */
  ghost predicate OsFails(s: State, e: Event) {
    match e
    case ByCall(_, SubmitError) => true
    case ByCall(_, ShutError) => true
    case ByCall(_, Submit(_, _, _, _, wake)) => wake.None? && Count(s.workers, IsAsleep) > 0
    case ByCall(_, Retry(wake)) => wake.None? && Count(s.workers, IsAsleep) > 0
    case ByHandle(_, Close(workersWoken, submittersWoken)) => !workersWoken || !submittersWoken
    case _ => false
  }

  lemma CallFaults(s: State, c: nat, e: CallStep)
    requires CallEnabled(s, c, e)
    ensures CallApply(s, c, e).faulted ==> s.faulted || OsFails(s, ByCall(c, e))
  {
  }

  lemma WorkerFaults(s: State, w: nat, e: WorkerStep)
    requires WorkerEnabled(s, w, e)
    ensures WorkerApply(s, w, e).faulted == s.faulted
  {
  }

  /** Only a failing OS call makes a run faulty. */
  lemma FaultsComeFromOs(s: State, e: Event)
    requires Enabled(s, e)
    ensures Apply(s, e).faulted ==> s.faulted || OsFails(s, e)
  {
    match e {
      case ByCtor(step) =>
      case ByWorker(w, step) => WorkerFaults(s, w, step);
      case ByCall(c, step) => CallFaults(s, c, step);
      case ByHandle(h, step) =>
    }
  }

  /** Whoever has an open handle can submit and shut down. */
  lemma CallsMayStart(s: State, c: nat, h: nat, task: Task, block: bool)
    requires c !in s.calls && h in s.handles && s.handles[h].Open? && task !in s.book.owner
    ensures CallEnabled(s, c, Submit(External, h, task, block, None)) && CallEnabled(s, c, Shutdown(External, h))
  {
  }

  /** A call that is awake can look again, without a fault. */
  lemma CallGoesOn(s: State, c: nat) returns (e: CallStep)
    requires c in s.calls && !s.calls[c].pc.SubmitAsleep? && !s.calls[c].pc.ShutAsleep?
    ensures CallEnabled(s, c, e) && !e.SubmitError? && !e.ShutError? && CallApply(s, c, e).faulted == s.faulted
  {
    if s.calls[c].pc.SubmitWoken? {
      var wake := SomeSleeper(s.workers, IsAsleep);
      e := Retry(if Judge(s.core, true, false) == Accept then wake else None);
    } else {
      e := Check;
    }
  }
}
