/**
  The lock-protected part of the thread pool core: the decisions each critical section takes, as
  functions of the abstract core, and the class that takes them in place on the ring.
 */
module PoolCores {
  import opened Threads
  import opened Rings

  /** A task is identified by the closure reference the submitter gave up. */
  type Task = nat

  const MAX_WORKER_COUNT := 64
  const MAX_CAPACITY := 16384

  datatype Core = Core(capacity: nat, queue: seq<Task>, accepting: bool, live: int, handles: int)

  datatype Verdict = Accept | Full | Closed | WouldDeadlock | Wait

  /** Which way a submit leaves its first test of the queue, or a later one when `onWorker` is false. */
  function Judge(c: Core, block: bool, onWorker: bool): Verdict {
    var full := |c.queue| == c.capacity;
    if block && c.accepting && full then (if onWorker then WouldDeadlock else Wait)
    else if !c.accepting then Closed
    else if full then Full
    else Accept
  }

  /** The native result code of a submit that returns. */
  function Code(v: Verdict): nat {
    match v
    case Accept => 0
    case Full => 1
    case Closed => 2
    case WouldDeadlock => 3
    case Wait => 2
  }

  datatype SubmitResult = Submitted | QueueFull | PoolClosed | PoolWouldDeadlock

  // ---- the pool as a bounded queue that one thread at a time submits to ----

  datatype Model = Model(capacity: nat, queue: seq<Task>, open: bool)

  function ModelOf(c: Core): Model { Model(c.capacity, c.queue, c.accepting) }

  /** What `try_execute` promises. */
  function ModelSubmit(m: Model, task: Task): (SubmitResult, Model) {
    if !m.open then (PoolClosed, m)
    else if |m.queue| < m.capacity then (Submitted, m.(queue := m.queue + [task]))
    else (QueueFull, m)
  }

  /** What any submit is told that does not wait: `execute` meets a full queue only on a worker. */
  function Told(m: Model, task: Task, block: bool): SubmitResult {
    var r := ModelSubmit(m, task).0;
    if block && r == QueueFull then PoolWouldDeadlock else r
  }

  /** When a submit waits. */
  predicate MustWait(m: Model, task: Task, block: bool, onWorker: bool) {
    block && !onWorker && ModelSubmit(m, task).0 == QueueFull
  }

  function NativeCode(r: SubmitResult): nat {
    match r
    case Submitted => 0
    case QueueFull => 1
    case PoolClosed => 2
    case PoolWouldDeadlock => 3
  }

  /** The tests of submit come out as the queue demands, for blocking and non-blocking submits. */
  lemma SubmitMatchesModel(c: Core, task: Task, block: bool, onWorker: bool)
    requires |c.queue| <= c.capacity
    ensures var v := Judge(c, block, onWorker);
      && (v == Wait <==> MustWait(ModelOf(c), task, block, onWorker))
      && (v != Wait ==> Code(v) == NativeCode(Told(ModelOf(c), task, block)))
      && (v == Accept ==> ModelOf(Pushed(c, task)) == ModelSubmit(ModelOf(c), task).1)
      && (v != Accept ==> ModelOf(c) == ModelSubmit(ModelOf(c), task).1)
  {
  }

  /** `ThreadPool::try_execute` */
  function DecodeTryExecute(code: int): SubmitResult {
    if code == 0 then Submitted else if code == 1 then QueueFull else PoolClosed
  }

  /** `ThreadPool::execute` */
  function DecodeExecute(code: int): SubmitResult {
    if code == 0 then Submitted else if code == 3 then PoolWouldDeadlock else PoolClosed
  }

  /** The caller is told what the pool was like, though each decoder folds the codes it does not name into closed. */
  lemma SubmitDecodingExact(c: Core, task: Task, block: bool, onWorker: bool)
    requires |c.queue| <= c.capacity && Judge(c, block, onWorker) != Wait
    ensures var code := Code(Judge(c, block, onWorker));
      (if block then DecodeExecute(code) else DecodeTryExecute(code)) == Told(ModelOf(c), task, block)
    ensures Told(ModelOf(c), task, block) == PoolWouldDeadlock ==> onWorker
  {
    SubmitMatchesModel(c, task, block, onWorker);
  }

  datatype Turn = Sleep | Leave | Take(task: Task)

  /** What a worker does once it holds the lock. */
  function WorkerTurn(c: Core): Turn {
    if c.queue != [] then Take(c.queue[0])
    else if c.accepting then Sleep
    else Leave
  }

  function Pushed(c: Core, task: Task): Core {
    c.(queue := c.queue + [task])
  }

  function AfterTurn(c: Core): Core {
    match WorkerTurn(c)
    case Sleep => c
    case Leave => c.(live := c.live - 1)
    case Take(_) => c.(queue := c.queue[1..])
  }

  function HandleDropped(c: Core): Core {
    c.(handles := c.handles - 1, accepting := c.accepting && c.handles != 1)
  }

  /** The native core, updated in place under its mutex. Each method is one critical section. */
  class PoolCore {
    const ring: Ring<Task>
    var accepting: bool
    var liveWorkers: int
    var handles: int

    ghost predicate Valid()
      reads this, ring, ring.slots
    {
      ring.Valid()
    }

    ghost function View(): Core
      requires Valid()
      reads this, ring, ring.slots
    {
      Core(ring.slots.Length, ring.Contents(), accepting, liveWorkers, handles)
    }

    constructor (capacity: nat)
      requires capacity > 0
      ensures Valid() && fresh(ring) && fresh(ring.slots)
      ensures View() == Core(capacity, [], true, 0, 1)
    {
      ring := new Ring(capacity);
      accepting, liveWorkers, handles := true, 0, 1;
    }

    /** One pass of `sync_thread_pool_submit_task` from a lock or a wake-up to an unlock or a wait. */
    method Submit(task: Task, block: bool, onWorker: bool) returns (v: Verdict, result: nat)
      requires Valid()
      modifies this, ring, ring.slots
      ensures Valid()
      ensures v == Judge(old(View()), block, onWorker)
      ensures v == Wait <==> MustWait(old(ModelOf(View())), task, block, onWorker)
      ensures v == Wait ==> View() == old(View())
      ensures v != Wait ==> result == Code(v) == NativeCode(Told(old(ModelOf(View())), task, block))
      ensures v != Wait ==> ModelOf(View()) == ModelSubmit(old(ModelOf(View())), task).1
      ensures View() == if v == Accept then Pushed(old(View()), task) else old(View())
    {
      SubmitMatchesModel(View(), task, block, onWorker);
      if block && accepting && onWorker && ring.count == ring.slots.Length {
        return WouldDeadlock, 3;
      }
      if block && accepting && ring.count == ring.slots.Length {
        return Wait, 0;
      }
      if !accepting {
        v, result := Closed, 2;
      } else if ring.count == ring.slots.Length {
        v, result := Full, 1;
      } else {
        ring.Put(task);
        v, result := Accept, 0;
      }
    }

    /** One pass of `sync_thread_pool_worker` from a lock or a wake-up to an unlock or a wait. */
    method Fetch() returns (turn: Turn)
      requires Valid()
      modifies this, ring, ring.slots
      ensures Valid()
      ensures turn == WorkerTurn(old(View())) && View() == AfterTurn(old(View()))
    {
      if ring.count == 0 && accepting {
        return Sleep;
      }
      if ring.count == 0 {
        liveWorkers := liveWorkers - 1;
        return Leave;
      }
      var task := ring.Take();
      turn := Take(task);
    }

    method Close()
      requires Valid()
      modifies this
      ensures Valid() && View() == old(View()).(accepting := false)
    {
      accepting := false;
    }

    /** The locked part of the handle finalizer; `abort` when the handle count is already used up. */
    method DropHandle() returns (aborts: bool)
      requires Valid()
      modifies this
      ensures Valid()
      ensures aborts == (old(View()).handles <= 0)
      ensures View() == if aborts then old(View()) else HandleDropped(old(View()))
    {
      if handles <= 0 {
        return true;
      }
      handles := handles - 1;
      if handles == 0 {
        accepting := false;
      }
      aborts := false;
    }

    method ShareHandle() returns (shared: bool)
      requires Valid()
      modifies this
      ensures Valid() && shared == (old(View()).handles != INT32_MAX)
      ensures View() == old(View()).(handles := old(View()).handles + if shared then 1 else 0)
    {
      if handles == INT32_MAX {
        return false;
      }
      handles := handles + 1;
      shared := true;
    }
  }
}
