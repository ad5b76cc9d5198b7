/**
  The thread pool as a protocol: any number of callers and handles, the pool's workers, and the
  constructor that creates them, interleaved one critical section or one unlocked action at a time.
 */
module Pools {
  import opened Threads
  import opened PoolCores

  datatype WorkerPc =
    | Fetching            // about to take the lock: new, woken, or back from a task
    | Asleep              // waiting on not_empty
    | Taken(task: Task)   // unlocked, about to call the task
    | Running(task: Task)
    | Exiting             // no longer live, reference not yet released
    | Exited

  datatype Caller = External | OnWorker(w: nat)

  datatype CallPc =
    | SubmitAsleep(task: Task)  // waiting on not_full
    | SubmitWoken(task: Task)
    | ShutRelock                // shutdown: closed, about to lock again
    | ShutAsleep                // waiting on stopped
    | ShutWoken

  datatype Call = Call(from: Caller, handle: nat, block: bool, pc: CallPc)

  /** Where `sync_thread_pool_new` stands in its worker loop or in the rollback of a failed creation. */
  datatype Ctor =
    | Growing | Inced | Counted
    | RollCount | RollRef | RollClose | RollWait | RollAsleep | RollFree | Failed
    | Ready

  /** Who has to release a task, or how its release came about. */
  datatype Owner =
    | InCall(c: nat) | InQueue | WithWorker(w: nat, started: bool)
    | Done                // called, then released by the worker
    | Refused(code: nat)  // released by the submit, which returned `code`

  /** The native result of a submit that has returned. */
  datatype Outcome = Outcome(task: Task, code: nat)

  /**
    The history of the tasks: who owns each one, what the submits returned, the order the tasks came
    and went, calls and releases.
   */
  datatype Book = Book(owner: map<Task, Owner>, log: multiset<Outcome>, accepted: seq<Task>, taken: seq<Task>,
                       called: multiset<Task>, released: multiset<Task>)
  {
    function Waits(k: Task, c: nat): Book { this.(owner := owner[k := InCall(c)]) }
    function Enters(k: Task): Book { this.(owner := owner[k := InQueue], accepted := accepted + [k]) }
    function Leaves(k: Task, w: nat): Book { this.(owner := owner[k := WithWorker(w, false)], taken := taken + [k]) }
    function Starts(k: Task, w: nat): Book {
      this.(owner := owner[k := WithWorker(w, true)], called := called + multiset{k})
    }
    function Returns(k: Task): Book { this.(owner := owner[k := Done], released := released + multiset{k}) }
    function Refuses(k: Task, code: nat): Book {
      this.(owner := owner[k := Refused(code)], released := released + multiset{k})
    }
    function Logs(k: Task, code: nat): Book { this.(log := log + multiset{Outcome(k, code)}) }
  }

  datatype State = State(
    core: Core, refs: int, frees: nat, target: nat, ctor: Ctor,
    workers: map<nat, WorkerPc>, calls: map<nat, Call>, handles: map<nat, HandlePc>,
    book: Book,
    shut: bool,     // a close, a shutdown or a rollback has closed the pool
    faulted: bool)  // some signal, broadcast or wait has failed without ending the process

  /** `sync_thread_pool_new` up to its worker loop. */
  function Create(workerCount: int, capacity: int): Option<State> {
    if workerCount <= 0 || workerCount > MAX_WORKER_COUNT || capacity <= 0 || capacity > MAX_CAPACITY then None
    else Some(State(Core(capacity, [], true, 0, 1), 1, 0, workerCount, Growing,
                    map[], map[], map[], Book(map[], multiset{}, [], [], multiset{}, multiset{}), false, false))
  }

  // ---- condition variables ----

  predicate IsAsleep(p: WorkerPc) { p.Asleep? }
  predicate IsFetching(p: WorkerPc) { p.Fetching? }
  predicate IsLive(p: WorkerPc) { !p.Exiting? && !p.Exited? }
  predicate IsUnreleased(p: WorkerPc) { !p.Exited? }
  predicate SubmitSleeps(c: Call) { c.pc.SubmitAsleep? }
  predicate SubmitIsWoken(c: Call) { c.pc.SubmitWoken? }
  predicate SubmitPends(c: Call) { c.pc.SubmitAsleep? || c.pc.SubmitWoken? }
  predicate ShutSleeps(c: Call) { c.pc.ShutAsleep? }
  predicate IsOpen(h: HandlePc) { h.Open? }
  predicate HoldsRef(h: HandlePc) { !h.Released? }

  function WakeWorker(p: WorkerPc): WorkerPc { if p.Asleep? then Fetching else p }
  function WakeSubmit(c: Call): Call {
    if c.pc.SubmitAsleep? then c.(pc := SubmitWoken(c.pc.task)) else c
  }
  function WakeShut(c: Call): Call { if c.pc.ShutAsleep? then c.(pc := ShutWoken) else c }

  /** A signal on not_empty wakes the worker `wake`; `None` when nobody was woken. */
  function SignalWorker(ws: map<nat, WorkerPc>, wake: Option<nat>): map<nat, WorkerPc> {
    if wake.Some? then ws[wake.value := Fetching] else ws
  }

  function SignalSubmit(cs: map<nat, Call>, wake: Option<nat>): map<nat, Call> {
    if wake.Some? && wake.value in cs then cs[wake.value := WakeSubmit(cs[wake.value])] else cs
  }

  ghost predicate WorkerSignal(s: State, wake: Option<nat>) {
    wake.Some? ==> wake.value in s.workers && s.workers[wake.value].Asleep?
  }

  /** A signal on not_full that succeeds wakes a sleeping submitter if there is one. */
  ghost predicate SubmitSignal(s: State, wake: Option<nat>) {
    match wake
    case Some(c) => c in s.calls && s.calls[c].pc.SubmitAsleep?
    case None => Count(s.calls, SubmitSleeps) == 0
  }

  // ---- steps ----

  datatype CtorStep =
    | IncRef | CountWorker | Spawn(w: nat) | SpawnFails
    | RollbackCount | RollbackRef | RollbackClose | RollbackCheck | RollbackSpurious | RollbackFree
    | Wrap(h: nat)

  datatype WorkerStep = Lock(wake: Option<nat>) | Spurious | CallTask | Return | Release

  datatype CallStep =
    | Submit(from: Caller, h: nat, task: Task, block: bool, wake: Option<nat>)
    | SubmitFails(from: Caller, h: nat, task: Task)  // injected error or failed lock
    | Retry(wake: Option<nat>)
    | SubmitSpurious
    | SubmitError                                  // the wait returned an error
    | Shutdown(from: Caller, h: nat)
    | Check                                        // the test of live_workers
    | ShutSpurious
    | ShutError                                    // the second lock or the wait returned an error

  datatype HandleStep = Share(h2: nat) | Close(workersWoken: bool, submittersWoken: bool) | DropLock | DropRelease

  datatype Event =
    | ByCtor(ctor: CtorStep)
    | ByWorker(w: nat, worker: WorkerStep)
    | ByCall(c: nat, call: CallStep)
    | ByHandle(h: nat, handle: HandleStep)

  /** `sync_thread_pool_core_release`: drops one reference and frees everything with the last one. */
  function Unref(s: State): State {
    if s.refs != 1 then s.(refs := s.refs - 1)
    else s.(refs := 0, frees := s.frees + 1, book := s.book.(released := s.book.released + multiset(s.core.queue)))
  }

  function CloseAndWake(s: State): State {
    s.(core := s.core.(accepting := false), workers := Each(s.workers, WakeWorker), calls := Each(s.calls, WakeSubmit))
  }

  ghost predicate CtorEnabled(s: State, e: CtorStep) {
    match e
    case IncRef => s.ctor.Growing? && |s.workers| < s.target
    case CountWorker => s.ctor.Inced?
    case Spawn(w) => s.ctor.Counted? && w !in s.workers
    case SpawnFails => s.ctor.Counted?
    case RollbackCount => s.ctor.RollCount?
    case RollbackRef => s.ctor.RollRef?
    case RollbackClose => s.ctor.RollClose?
    case RollbackCheck => s.ctor.RollWait?
    case RollbackSpurious => s.ctor.RollAsleep?
    case RollbackFree => s.ctor.RollFree?
    case Wrap(h) => s.ctor.Growing? && |s.workers| == s.target && h !in s.handles
  }

  ghost function CtorApply(s: State, e: CtorStep): State {
    match e
    case IncRef => s.(refs := s.refs + 1, ctor := Inced)
    case CountWorker => s.(core := s.core.(live := s.core.live + 1), ctor := Counted)
    case Spawn(w) => s.(workers := s.workers[w := Fetching], ctor := Growing)
    case SpawnFails => s.(ctor := RollCount)
    case RollbackCount => s.(core := s.core.(live := s.core.live - 1), ctor := RollRef)
    case RollbackRef => Unref(s).(ctor := RollClose)
    case RollbackClose => CloseAndWake(s).(ctor := RollWait, shut := true)
    case RollbackCheck => s.(ctor := if s.core.live != 0 then RollAsleep else RollFree)
    case RollbackSpurious => s.(ctor := RollWait)
    case RollbackFree => Unref(s).(ctor := Failed)
    case Wrap(h) => s.(handles := s.handles[h := Open], ctor := Ready)
  }

  ghost predicate NotInCall(s: State, w: nat) {
    forall c :: c in s.calls ==> s.calls[c].from != OnWorker(w)
  }

  ghost predicate WorkerEnabled(s: State, w: nat, e: WorkerStep) {
    w in s.workers &&
    match e
    case Lock(wake) =>
      && s.workers[w].Fetching?
      && (if WorkerTurn(s.core).Take? then SubmitSignal(s, wake) else wake == None)
    case Spurious => s.workers[w].Asleep?
    case CallTask => s.workers[w].Taken?
    case Return => s.workers[w].Running? && NotInCall(s, w)
    case Release => s.workers[w].Exiting?
  }

  ghost function WorkerApply(s: State, w: nat, e: WorkerStep): State
    requires WorkerEnabled(s, w, e)
  {
    match e
    case Lock(wake) => (
      var s1 := s.(core := AfterTurn(s.core));
      match WorkerTurn(s.core)
      case Sleep => s1.(workers := s.workers[w := Asleep])
      case Leave => s1.(workers := s.workers[w := Exiting], calls := Each(s.calls, WakeShut),
                        ctor := if s.ctor.RollAsleep? then RollWait else s.ctor)
      case Take(k) => s1.(workers := s.workers[w := Taken(k)], calls := SignalSubmit(s.calls, wake),
                          book := s.book.Leaves(k, w)))
    case Spurious => s.(workers := s.workers[w := Fetching])
    case CallTask =>
      var k := s.workers[w].task;
      s.(workers := s.workers[w := Running(k)], book := s.book.Starts(k, w))
    case Return =>
      s.(workers := s.workers[w := Fetching], book := s.book.Returns(s.workers[w].task))
    case Release => Unref(s.(workers := s.workers[w := Exited]))
  }

  /** A call needs an open handle; one made by a worker is made from the task that worker runs. */
  ghost predicate MayCall(s: State, from: Caller, h: nat) {
    && h in s.handles && s.handles[h].Open?
    && (from.OnWorker? ==> from.w in s.workers && s.workers[from.w].Running? && NotInCall(s, from.w))
  }

  ghost predicate CallEnabled(s: State, c: nat, e: CallStep) {
    match e
    case Submit(from, h, task, block, wake) =>
      && c !in s.calls && MayCall(s, from, h) && task !in s.book.owner && WorkerSignal(s, wake)
      && (wake.Some? ==> Judge(s.core, block, from.OnWorker?) == Accept)
    case SubmitFails(from, h, task) => c !in s.calls && MayCall(s, from, h) && task !in s.book.owner
    case Retry(wake) =>
      && c in s.calls && s.calls[c].pc.SubmitWoken? && WorkerSignal(s, wake)
      && (wake.Some? ==> Judge(s.core, true, false) == Accept)
    case SubmitSpurious => c in s.calls && s.calls[c].pc.SubmitAsleep?
    case SubmitError => c in s.calls && s.calls[c].pc.SubmitWoken?
    case Shutdown(from, h) => c !in s.calls && MayCall(s, from, h)
    case Check => c in s.calls && (s.calls[c].pc.ShutRelock? || s.calls[c].pc.ShutWoken?)
    case ShutSpurious => c in s.calls && s.calls[c].pc.ShutAsleep?
    case ShutError => c in s.calls && (s.calls[c].pc.ShutRelock? || s.calls[c].pc.ShutWoken?)
  }

  /** The task enters the ring, not_empty is signalled, and the native result is 0. */
  ghost function Enqueued(s: State, task: Task, wake: Option<nat>): State {
    s.(core := Pushed(s.core, task), workers := SignalWorker(s.workers, wake),
       book := s.book.Enters(task).Logs(task, Code(Accept)),
       faulted := s.faulted || (wake.None? && Count(s.workers, IsAsleep) > 0))
  }

  /** The submit returns `code` and releases the task. */
  ghost function Rejected(s: State, task: Task, code: nat): State {
    s.(book := s.book.Refuses(task, code).Logs(task, code))
  }

  ghost function CallApply(s: State, c: nat, e: CallStep): State
    requires CallEnabled(s, c, e)
  {
    match e
    case Submit(from, h, task, block, wake) => (
      match Judge(s.core, block, from.OnWorker?)
      case Accept => Enqueued(s, task, wake)
      case Wait => s.(calls := s.calls[c := Call(from, h, block, SubmitAsleep(task))], book := s.book.Waits(task, c))
      case v => Rejected(s, task, Code(v)))
    case SubmitFails(from, h, task) => Rejected(s, task, 2)
    case Retry(wake) => (
      var task := s.calls[c].pc.task;
      var s1 := s.(calls := s.calls - {c});
      match Judge(s.core, true, false)
      case Accept => Enqueued(s1, task, wake)
      case Wait => s.(calls := s.calls[c := s.calls[c].(pc := SubmitAsleep(task))])
      case v => Rejected(s1, task, Code(v)))
    case SubmitSpurious => s.(calls := s.calls[c := WakeSubmit(s.calls[c])])
    case SubmitError => Rejected(s.(calls := s.calls - {c}, faulted := true), s.calls[c].pc.task, 2)
    case Shutdown(from, h) =>
      if from.OnWorker? then s  // returns -1
      else var s1 := CloseAndWake(s); s1.(calls := s1.calls[c := Call(from, h, true, ShutRelock)], shut := true)
    case Check =>
      if s.core.live != 0 then s.(calls := s.calls[c := s.calls[c].(pc := ShutAsleep)])
      else s.(calls := s.calls - {c})  // returns 0 with status 0
    case ShutSpurious => s.(calls := s.calls[c := WakeShut(s.calls[c])])
    case ShutError => s.(calls := s.calls - {c}, faulted := true)
  }

  ghost predicate HandleEnabled(s: State, h: nat, e: HandleStep) {
    h in s.handles &&
    match e
    case Share(h2) => s.handles[h].Open? && h2 !in s.handles
    case Close(_, _) => s.handles[h].Open?
    case DropLock => s.handles[h].Open? && forall c :: c in s.calls ==> s.calls[c].handle != h
    case DropRelease => s.handles[h].Dropping?
  }

  ghost function HandleApply(s: State, h: nat, e: HandleStep): State
    requires HandleEnabled(s, h, e)
  {
    match e
    case Share(h2) =>
      if s.core.handles == INT32_MAX then s
      else s.(core := s.core.(handles := s.core.handles + 1), refs := s.refs + 1, handles := s.handles[h2 := Open])
    case Close(workersWoken, submittersWoken) =>
      s.(core := s.core.(accepting := false),
         workers := if workersWoken then Each(s.workers, WakeWorker) else s.workers,
         calls := if submittersWoken then Each(s.calls, WakeSubmit) else s.calls,
         shut := true, faulted := s.faulted || !workersWoken || !submittersWoken)
    case DropLock =>
      var s1 := s.(core := HandleDropped(s.core), handles := s.handles[h := Dropping]);
      if s1.core.handles == 0 then CloseAndWake(s1) else s1
    case DropRelease => Unref(s.(handles := s.handles[h := Released]))
  }

  ghost predicate Enabled(s: State, e: Event) {
    match e
    case ByCtor(step) => CtorEnabled(s, step)
    case ByWorker(w, step) => WorkerEnabled(s, w, step)
    case ByCall(c, step) => CallEnabled(s, c, step)
    case ByHandle(h, step) => HandleEnabled(s, h, step)
  }

  ghost function Apply(s: State, e: Event): State
    requires Enabled(s, e)
  {
    match e
    case ByCtor(step) => CtorApply(s, step)
    case ByWorker(w, step) => WorkerApply(s, w, step)
    case ByCall(c, step) => CallApply(s, c, step)
    case ByHandle(h, step) => HandleApply(s, h, step)
  }

  /** The events `es` can happen one after the other from `s`. */
  ghost predicate Possible(s: State, es: seq<Event>)
    decreases |es|
  {
    es == [] || (Enabled(s, es[0]) && Possible(Apply(s, es[0]), es[1..]))
  }

  ghost function After(s: State, es: seq<Event>): State
    requires Possible(s, es)
    decreases |es|
  {
    if es == [] then s else After(Apply(s, es[0]), es[1..])
  }
}
