/**
  The lock-protected part of a native thread: what each critical section does to the lifecycle
  state, the task and the result, as functions and as a class that does it in place.
 */
module ThreadCores {
  import opened Threads

  datatype Phase = Created | Joinable | Joining | Detaching | Joined | Detached | Failed

  predicate Terminal(p: Phase) { p.Joined? || p.Detached? || p.Failed? }

  /** `task` says whether the core still owns the task closure; `result` is the box it owns, if any. */
  datatype Core = Core(phase: Phase, task: bool, result: Option<nat>, started: bool, finished: bool)
  {
    /** Status of the tests at the start of a join; 0 when the join may go on to the OS. */
    function JoinStatus(onWorker: bool): int {
      if !started || phase.Failed? || phase.Joined? then -1
      else if phase.Detached? then -3
      else if phase.Joining? || phase.Detaching? then -4
      else if onWorker then -2
      else 0
    }

    function DetachStatus(): int {
      if !started || phase.Failed? || phase.Joined? then -1
      else if phase.Detached? then -2
      else if phase.Joining? || phase.Detaching? then -3
      else 0
    }

    function Published(): Core { this.(started := true, phase := Joinable) }
    function AfterJoin(): Core { this.(phase := Joined, task := false, result := None) }
    function AfterDetach(): Core { this.(phase := Detached, task := task && !finished) }
    function AfterCall(): Core { this.(finished := true, task := task && !phase.Detached?) }
    function Completed(box: nat): Core { if result.None? then this.(result := Some(box)) else this }
  }

  // ---- decoding in the wrapper ----

  datatype Answer = Succeeds | AlreadyJoined | OnItself | AlreadyDetached | InProgress | OsError(code: int)

  /** `join_raw` */
  function DecodeJoin(status: int): Answer {
    if status == 0 then Succeeds
    else if status == -1 then AlreadyJoined
    else if status == -2 then OnItself
    else if status == -3 then AlreadyDetached
    else if status == -4 then InProgress
    else OsError(status)
  }

  /** `detach_raw` */
  function DecodeDetach(status: int): Answer {
    if status == 0 then Succeeds
    else if status == -1 then AlreadyJoined
    else if status == -2 then AlreadyDetached
    else if status == -3 then InProgress
    else OsError(status)
  }

  /** What a thread that has been started, or never was, lets a join or detach by another thread do. */
  function Expected(phase: Phase): Answer {
    match phase
    case Joinable => Succeeds
    case Joining | Detaching => InProgress
    case Detached => AlreadyDetached
    case Joined | Created | Failed => AlreadyJoined
  }

  class ThreadCore {
    var phase: Phase
    var task: bool
    var result: Option<nat>
    var started: bool
    var finished: bool

    ghost function View(): Core
      reads this
    {
      Core(phase, task, result, started, finished)
    }

    constructor ()
      ensures View() == Core(Created, false, None, false, false)
    {
      phase, task, result, started, finished := Created, false, None, false, false;
    }

    /** The first locked section of `sync_thread_join`; `injected` is a test error. */
    method BeginJoin(onWorker: bool, injected: int) returns (status: int)
      modifies this
      ensures status == if old(View()).JoinStatus(onWorker) != 0 then old(View()).JoinStatus(onWorker) else injected
      ensures View() == if status == 0 then old(View()).(phase := Joining) else old(View())
    {
      if !started || phase == Failed || phase == Joined {
        return -1;
      }
      if phase == Detached {
        return -3;
      }
      if phase == Joining || phase == Detaching {
        return -4;
      }
      if onWorker {
        return -2;
      }
      if injected != 0 {
        return injected;
      }
      phase := Joining;
      status := 0;
    }

    /** The locked section after the OS join succeeded. */
    method CommitJoin() returns (box: Option<nat>, tookTask: bool)
      modifies this
      ensures View() == old(View()).AfterJoin()
      ensures box == old(result) && tookTask == old(task)
    {
      box := result;
      result := None;
      tookTask := task;
      task := false;
      phase := Joined;
    }

    method BeginDetach() returns (status: int)
      modifies this
      ensures status == old(View()).DetachStatus()
      ensures View() == if status == 0 then old(View()).(phase := Detaching) else old(View())
    {
      if !started || phase == Failed || phase == Joined {
        return -1;
      }
      if phase == Detached {
        return -2;
      }
      if phase == Joining || phase == Detaching {
        return -3;
      }
      phase := Detaching;
      status := 0;
    }

    /** The locked section after the OS detach succeeded. */
    method CommitDetach() returns (tookTask: bool)
      modifies this
      ensures View() == old(View()).AfterDetach()
      ensures tookTask == (old(task) && !task)
    {
      phase := Detached;
      tookTask := false;
      if finished {
        tookTask := task;
        task := false;
      }
    }

    /** An OS join or detach failed: the thread can be joined or detached again. */
    method Restore()
      modifies this
      ensures View() == old(View()).(phase := Joinable)
    {
      phase := Joinable;
    }

    /** The locked section of `sync_thread_main`. */
    method Finish() returns (tookTask: bool)
      modifies this
      ensures View() == old(View()).AfterCall()
      ensures tookTask == (old(task) && !task)
    {
      finished := true;
      tookTask := false;
      if phase == Detached {
        tookTask := task;
        task := false;
      }
    }

    /** `sync_thread_complete`: keeps the first box, and says whether this one is released at once. */
    method Complete(box: nat) returns (released: bool)
      modifies this
      ensures View() == old(View()).Completed(box) && released == old(result).Some?
    {
      if result == None {
        result := Some(box);
        released := false;
      } else {
        released := true;
      }
    }
  }
}
