/** Every step of the thread lifecycle keeps the invariant, and what that means over every run. */
module LifecycleProofs {
  import opened Threads
  import opened ThreadCores
  import opened Lifecycles

  lemma CallMoves(cs: map<nat, Call>, c: nat, v: Call)
    ensures Count(cs[c := v], IsJoining) == Count(cs, IsJoining) - Here(cs, c, IsJoining) + One(IsJoining(v))
    ensures Count(cs[c := v], IsDetaching) == Count(cs, IsDetaching) - Here(cs, c, IsDetaching) + One(IsDetaching(v))
    ensures Count(cs[c := v], HoldsTask) == Count(cs, HoldsTask) - Here(cs, c, HoldsTask) + One(HoldsTask(v))
  {
    CountPut(cs, c, v, IsJoining);
    CountPut(cs, c, v, IsDetaching);
    CountPut(cs, c, v, HoldsTask);
  }

  lemma CallEnds(cs: map<nat, Call>, c: nat)
    ensures Count(cs - {c}, IsJoining) == Count(cs, IsJoining) - Here(cs, c, IsJoining)
    ensures Count(cs - {c}, IsDetaching) == Count(cs, IsDetaching) - Here(cs, c, IsDetaching)
    ensures Count(cs - {c}, HoldsTask) == Count(cs, HoldsTask) - Here(cs, c, HoldsTask)
  {
    CountDrop(cs, c, IsJoining);
    CountDrop(cs, c, IsDetaching);
    CountDrop(cs, c, HoldsTask);
  }

  lemma CreatorKeeps(s: State, e: Event)
    requires Inv(s) && Enabled(s, e) && (e.Start? || e.StartFails? || e.Spawn?)
    ensures Inv(Apply(s, e))
  {
    CountPositive(s.calls, HoldsTask);
  }

  lemma FailureKeeps(s: State)
    requires Inv(s) && Enabled(s, CreatorGoesOn) && !s.creator.Publishing?
    ensures Inv(Apply(s, CreatorGoesOn))
  {
    CountPositive(s.calls, IsJoining);
    CountPositive(s.calls, IsDetaching);
  }

  lemma PublishKeeps(s: State)
    requires Inv(s) && Enabled(s, CreatorGoesOn) && s.creator.Publishing?
    ensures Inv(Apply(s, CreatorGoesOn))
  {
    CountPositive(s.calls, IsJoining);
    CountPositive(s.calls, IsDetaching);
  }

  lemma CompleteKeepsBoxes(s: State, box: nat)
    requires Boxes(s) && Enabled(s, Complete(box)) && !s.core.phase.Joined? && s.frees == 0
    ensures Boxes(Apply(s, Complete(box)))
  {
  }

  lemma CompleteKeeps(s: State, box: nat)
    requires Inv(s) && Enabled(s, Complete(box))
    ensures Inv(Apply(s, Complete(box)))
  {
    CompleteKeepsBoxes(s, box);
  }

  lemma WorkerKeeps(s: State, e: Event)
    requires Inv(s) && Enabled(s, e) && (e.TaskReturns? || e.WorkerLocks? || (e.WorkerGoesOn? && s.worker.Unlocked?))
    ensures Inv(Apply(s, e))
  {
  }

  lemma ReleasedBox(boxes: map<nat, BoxOwner>, releases: multiset<nat>, b: nat)
    requires BoxesOwned(Some(b), boxes, releases)
    ensures BoxesOwned(None, boxes[b := BoxReleased], releases + multiset{b})
  {
  }

  /** Dropping a reference keeps the boxes; the last one releases the stored box. */
  lemma UnrefKeepsBoxes(s: State)
    requires Boxes(s)
    ensures Boxes(Unref(s))
  {
    if s.refs == 1 && s.core.result.Some? {
      ReleasedBox(s.boxes, s.boxReleases, s.core.result.value);
    }
  }

  lemma LeavingKeeps(s: State)
    requires Inv(s) && Enabled(s, WorkerGoesOn) && s.worker.Leaving?
    ensures Inv(Apply(s, WorkerGoesOn))
  {
    UnrefKeepsBoxes(s.(worker := Terminated));
  }

  /** A call moves; what the others find is not changed. */
  lemma CallSetsFit(cs: map<nat, Call>, was: Phase, phase: Phase, worker: WorkerPc, first: Option<nat>, c: nat, v: Call)
    requires CallsFit(cs, was, worker, first) && CallFits(v, phase, worker, first) && (was.Joined? ==> phase.Joined?)
    ensures CallsFit(cs[c := v], phase, worker, first)
  {
  }

  lemma JoinBeginKeeps(s: State, c: nat, onWorker: bool, injected: bool)
    requires Inv(s) && Enabled(s, Join(c, onWorker, injected))
    ensures Inv(Apply(s, Join(c, onWorker, injected)))
  {
    if s.core.JoinStatus(onWorker) == 0 && !injected {
      CallMoves(s.calls, c, Call(onWorker, JoinOs));
      CallSetsFit(s.calls, s.core.phase, Joining, s.worker, s.first, c, Call(onWorker, JoinOs));
    }
  }

  lemma DetachBeginKeeps(s: State, c: nat, onWorker: bool)
    requires Inv(s) && Enabled(s, Detach(c, onWorker))
    ensures Inv(Apply(s, Detach(c, onWorker)))
  {
    if s.core.DetachStatus() == 0 {
      CallMoves(s.calls, c, Call(onWorker, DetachOs));
      CallSetsFit(s.calls, s.core.phase, Detaching, s.worker, s.first, c, Call(onWorker, DetachOs));
    }
  }

  /** A call goes on without a change to the core. */
  lemma CallSetKeeps(s: State, c: nat, pc: CallPc)
    requires Inv(s) && c in s.calls && InOs(s.calls[c]) && s.handle.Live?
    requires if s.calls[c].pc.JoinOs? then pc.JoinWon? || pc.JoinLost? else pc.DetachWon? || pc.DetachLost?
    requires pc.JoinWon? ==> s.worker.Terminated?
    ensures Inv(WithCall(s, c, pc))
  {
    CallMoves(s.calls, c, s.calls[c].(pc := pc));
    CallSetsFit(s.calls, s.core.phase, s.core.phase, s.worker, s.first, c, s.calls[c].(pc := pc));
  }

  lemma OsKeeps(s: State, e: Event)
    requires Inv(s) && Enabled(s, e) && (e.OsJoin? || e.OsDetach?)
    ensures Inv(Apply(s, e))
  {
    if e.OsJoin? {
      CallSetKeeps(s, e.c, if e.ok then JoinWon else JoinLost);
    } else {
      CallSetKeeps(s, e.c, if e.ok then DetachWon else DetachLost);
    }
  }

  lemma JoinWonKeepsBoxes(s: State, c: nat)
    requires Boxes(s) && c in s.calls && s.calls[c].pc.JoinWon? && !s.core.phase.Joined? && s.frees == 0
    ensures Boxes(CallStep(s, c))
  {
  }

  lemma JoinWonKeeps(s: State, c: nat)
    requires Inv(s) && c in s.calls && s.calls[c].pc.JoinWon?
    ensures Inv(CallStep(s, c))
  {
    var v := s.calls[c].(pc := JoinEnds(s.core.result, s.core.task));
    CountPositive(s.calls, IsJoining);
    CallMoves(s.calls, c, v);
    CallSetsFit(s.calls, s.core.phase, Joined, s.worker, s.first, c, v);
    JoinWonKeepsBoxes(s, c);
  }

  lemma DetachKeepsTask(core: Core, creator: CreatorPc, worker: WorkerPc)
    requires Stages(core, creator, worker) && TaskKept(core, creator, worker) && core.phase.Detaching?
    ensures Stages(core.AfterDetach(), creator, worker) && TaskKept(core.AfterDetach(), creator, worker)
  {
  }

  lemma DetachWonKeeps(s: State, c: nat)
    requires Inv(s) && c in s.calls && s.calls[c].pc.DetachWon?
    ensures Inv(CallStep(s, c))
  {
    var v := s.calls[c].(pc := DetachEnds(s.core.task && s.core.finished));
    CountPositive(s.calls, IsDetaching);
    DetachKeepsTask(s.core, s.creator, s.worker);
    CallMoves(s.calls, c, v);
    CallSetsFit(s.calls, s.core.phase, Detached, s.worker, s.first, c, v);
  }

  lemma CallLostKeeps(s: State, c: nat)
    requires Inv(s) && c in s.calls && (s.calls[c].pc.JoinLost? || s.calls[c].pc.DetachLost?)
    ensures Inv(CallStep(s, c))
  {
    CallEnds(s.calls, c);
    CountPositive(s.calls, IsJoining);
    CountPositive(s.calls, IsDetaching);
  }

  lemma CallEndKeeps(s: State, c: nat)
    requires Inv(s) && c in s.calls && (s.calls[c].pc.JoinEnds? || s.calls[c].pc.DetachEnds?)
    ensures Inv(CallStep(s, c))
  {
    CallEnds(s.calls, c);
  }

  lemma CallKeeps(s: State, c: nat)
    requires Inv(s) && Enabled(s, CallGoesOn(c))
    ensures Inv(Apply(s, CallGoesOn(c)))
  {
    match s.calls[c].pc {
      case JoinWon => JoinWonKeeps(s, c);
      case DetachWon => DetachWonKeeps(s, c);
      case JoinLost => CallLostKeeps(s, c);
      case DetachLost => CallLostKeeps(s, c);
      case _ => CallEndKeeps(s, c);
    }
  }

  lemma HandleReleaseKeeps(s: State)
    requires Inv(s) && Enabled(s, HandleRelease)
    ensures Inv(Apply(s, HandleRelease))
  {
    UnrefKeepsBoxes(s.(handle := Dropped));
  }

  lemma StepKeeps(s: State, e: Event)
    requires Inv(s) && Enabled(s, e)
    ensures Inv(Apply(s, e))
  {
    match e {
      case Start => CreatorKeeps(s, e);
      case StartFails => CreatorKeeps(s, e);
      case CreatorGoesOn =>
        if s.creator.Publishing? {
          PublishKeeps(s);
        } else {
          FailureKeeps(s);
        }
      case Spawn => CreatorKeeps(s, e);
      case Join(c, onWorker, injected) => JoinBeginKeeps(s, c, onWorker, injected);
      case Detach(c, onWorker) => DetachBeginKeeps(s, c, onWorker);
      case OsJoin(_, _) => OsKeeps(s, e);
      case OsDetach(_, _) => OsKeeps(s, e);
      case CallGoesOn(c) => CallKeeps(s, c);
      case Finalize =>
      case HandleRelease => HandleReleaseKeeps(s);
      case Complete(box) => CompleteKeeps(s, box);
      case TaskReturns => WorkerKeeps(s, e);
      case WorkerLocks => WorkerKeeps(s, e);
      case WorkerGoesOn =>
        if s.worker.Leaving? {
          LeavingKeeps(s);
        } else {
          WorkerKeeps(s, e);
        }
    }
  }

  lemma CreateHolds()
    ensures Inv(Create())
  {
    var cs := Create().calls;
    assert At(cs, IsJoining) == {} && At(cs, IsDetaching) == {} && At(cs, HoldsTask) == {};
  }

  lemma {:induction false} RunKeeps(s: State, es: seq<Event>)
    requires Inv(s) && Possible(s, es)
    ensures Inv(After(s, es))
    decreases |es|
  {
    if es != [] {
      StepKeeps(s, es[0]);
      RunKeeps(Apply(s, es[0]), es[1..]);
    }
  }

  // ---- over every run ----

  ghost predicate Reachable(s: State) {
    exists es: seq<Event> :: Possible(Create(), es) && s == After(Create(), es)
  }

  lemma ReachableHolds(s: State)
    requires Reachable(s)
    ensures Inv(s)
  {
    var es: seq<Event> :| Possible(Create(), es) && s == After(Create(), es);
    CreateHolds();
    RunKeeps(Create(), es);
  }

  /** The task closure is released at most once, and never while the worker runs it. */
  lemma TaskReleasedOnce(s: State)
    requires Reachable(s)
    ensures s.taskReleases <= 1
    ensures s.worker.Running? ==> s.taskReleases == 0 && s.core.task
    ensures s.creator.NotStarted? ==> s.taskReleases == 0
    ensures s.frees == 1 ==> s.taskReleases == 1
  {
    ReachableHolds(s);
    CountPositive(s.calls, HoldsTask);
  }

  lemma NoAccessAfterFree(s: State, e: Event)
    requires Inv(s) && Enabled(s, e)
    ensures s.frees == 0
  {
  }

  /** Only these three steps drop a reference. */
  predicate Drops(s: State, e: Event) {
    e.HandleRelease? || (e.WorkerGoesOn? && s.worker.Leaving?) || (e.CreatorGoesOn? && s.creator.FailRelease?)
  }

  lemma OthersFreeNothing(s: State, e: Event)
    requires Enabled(s, e) && !Drops(s, e)
    ensures Apply(s, e).frees == s.frees
  {
  }

  lemma DropFindsNoTask(s: State, e: Event)
    requires Inv(s) && Enabled(s, e) && Drops(s, e) && s.refs == 1
    ensures !s.core.task && s.taskReleases == 1
  {
    CountPositive(s.calls, HoldsTask);
  }

  /** Whoever drops the last reference finds the task already gone and frees the core once. */
  lemma FreedWithoutTask(s: State, e: Event)
    requires Reachable(s) && Enabled(s, e)
    ensures s.frees == 0
    ensures Apply(s, e).frees != 0 ==> Apply(s, e).frees == 1 && !s.core.task && s.taskReleases == 1
  {
    ReachableHolds(s);
    NoAccessAfterFree(s, e);
    if !Drops(s, e) {
      OthersFreeNothing(s, e);
    } else if s.refs == 1 {
      DropFindsNoTask(s, e);
    }
  }

  /** One join or detach at most succeeds, and one at most is with the operating system. */
  lemma OneJoinOrDetach(s: State)
    requires Reachable(s)
    ensures s.joins + s.detaches <= 1
    ensures Count(s.calls, InOs) <= 1
    ensures s.joins == 1 ==> s.core.finished && s.worker.Terminated?
    ensures s.core.phase.Joinable? ==> s.core.task && s.joins + s.detaches == 0
  {
    ReachableHolds(s);
    CountOr(s.calls, IsJoining, IsDetaching, IsBusy);
    CountImplies(s.calls, InOs, IsBusy);
  }

  predicate IsBusy(c: Call) { IsJoining(c) || IsDetaching(c) }

  /** A failed attempt leaves the thread as it was before it: joinable, with its task and its result. */
  lemma FailedAttemptRestores(s: State, c: nat)
    requires Reachable(s) && Enabled(s, CallGoesOn(c)) && (s.calls[c].pc.JoinLost? || s.calls[c].pc.DetachLost?)
    ensures var t := Apply(s, CallGoesOn(c));
      t.core == s.core.(phase := Joinable) && t.core.task && t.joins + t.detaches == 0 && Count(t.calls, InOs) == 0
  {
    ReachableHolds(s);
    StepKeeps(s, CallGoesOn(c));
    var t := Apply(s, CallGoesOn(c));
    CountOr(t.calls, IsJoining, IsDetaching, IsBusy);
    CountImplies(t.calls, InOs, IsBusy);
  }

  /**
    A result box is stored, handed to one joiner, or released once; none is left behind. A successful
    join returns the box of the first completion, if there was one.
   */
  lemma BoxReleasedOnce(s: State, box: nat)
    requires Reachable(s) && box in s.boxes
    ensures s.boxReleases[box] <= 1
    ensures s.boxReleases[box] == 1 <==> s.boxes[box] == BoxReleased
    ensures s.boxes[box] == Stored ==> s.core.result == Some(box) && s.frees == 0
    ensures s.boxes[box].Handed? ==> s.joins == 1 && s.first == Some(box)
    ensures s.joins == 1 ==> (s.boxes[box].Handed? <==> s.first == Some(box))
    ensures s.joins == 0 && s.frees == 1 ==> s.boxReleases[box] == 1
  {
    ReachableHolds(s);
  }

  lemma JoinReturnsFirst(s: State, c: nat)
    requires Reachable(s) && c in s.calls && s.calls[c].pc.JoinEnds?
    ensures s.joins == 1 && s.calls[c].pc.box == s.first
    ensures s.boxes != map[] ==> s.first.Some? && s.first.value in s.boxes && s.boxes[s.first.value].Handed?
  {
    ReachableHolds(s);
  }
}
