/**
  The lifecycle of one native thread as a protocol: its creator, its worker, any number of threads
  that join or detach it at the same time, and the finalizer of its handle.
 */
module Lifecycles {
  import opened Threads
  import opened ThreadCores

  datatype CreatorPc =
    | NotStarted
    | Starting                // task stored, reference counted, OS thread not yet created
    | FailDecref              // creation failed: task taken back, about to release it
    | FailMark | FailRelease
    | Publishing              // OS thread created, about to lock
    | Returned

  datatype WorkerPc =
    | Absent
    | Running                 // in `call`
    | Back                    // `call` returned, about to lock
    | Unlocked(took: bool)    // about to release the task if it took it
    | Leaving                 // about to drop its reference
    | Terminated

  datatype CallPc =
    | JoinOs | JoinWon | JoinLost                   // in pthread_join, or back from it
    | JoinEnds(box: Option<nat>, took: bool)        // committed and unlocked
    | DetachOs | DetachWon | DetachLost
    | DetachEnds(took: bool)

  datatype Call = Call(onWorker: bool, pc: CallPc)

  datatype HandlePc = Live | Checked | Dropped

  /** Who has to release a result box. */
  datatype BoxOwner = Stored | Handed(c: nat) | BoxReleased

  datatype State = State(
    core: Core, refs: int, frees: nat, aborted: bool,
    creator: CreatorPc, worker: WorkerPc, calls: map<nat, Call>, handle: HandlePc,
    taskReleases: nat, joins: nat, detaches: nat,
    first: Option<nat>,  // the box that the task completed with first
    boxes: map<nat, BoxOwner>, boxReleases: multiset<nat>)

  /** `sync_thread_new` */
  function Create(): State {
    State(Core(Created, false, None, false, false), 1, 0, false, NotStarted, Absent, map[], Live,
          0, 0, 0, None, map[], multiset{})
  }

  datatype Event =
    | Start | StartFails | CreatorGoesOn | Spawn
    | Complete(box: nat) | TaskReturns | WorkerLocks | WorkerGoesOn
    | Join(c: nat, onWorker: bool, injected: bool) | OsJoin(c: nat, ok: bool)
    | Detach(c: nat, onWorker: bool) | OsDetach(c: nat, ok: bool)
    | CallGoesOn(c: nat)
    | Finalize | HandleRelease

  /** A test or a commit that a call makes under the lock, or its last unlocked action. */
  ghost predicate Enabled(s: State, e: Event) {
    !s.aborted &&
    match e
    case Start => s.creator.NotStarted? && s.handle.Live?
    case StartFails => s.creator.Starting?
    case CreatorGoesOn =>
      s.creator.FailDecref? || s.creator.FailMark? || s.creator.FailRelease? || s.creator.Publishing?
    case Spawn => s.creator.Starting?
    case Complete(box) => s.worker.Running? && box !in s.boxes
    case TaskReturns => s.worker.Running? && forall c :: c in s.calls ==> !s.calls[c].onWorker
    case WorkerLocks => s.worker.Back?
    case WorkerGoesOn => s.worker.Unlocked? || s.worker.Leaving?
    case Join(c, onWorker, _) => c !in s.calls && MayCall(s, onWorker)
    case OsJoin(c, ok) => c in s.calls && s.calls[c].pc.JoinOs? && (ok ==> s.worker.Terminated?)
    case Detach(c, onWorker) => c !in s.calls && MayCall(s, onWorker)
    case OsDetach(c, _) => c in s.calls && s.calls[c].pc.DetachOs?
    case CallGoesOn(c) => c in s.calls && !s.calls[c].pc.JoinOs? && !s.calls[c].pc.DetachOs?
    case Finalize => s.handle.Live? && s.calls == map[] && (s.creator.NotStarted? || s.creator.Returned?)
    case HandleRelease => s.handle.Checked?
  }

  /** A call borrows the handle; the worker calls only from within its task, one call at a time. */
  ghost predicate MayCall(s: State, onWorker: bool) {
    && s.handle.Live?
    && (onWorker ==> s.worker.Running? && forall c :: c in s.calls ==> !s.calls[c].onWorker)
  }

  /** `sync_thread_core_release` */
  function Unref(s: State): State {
    if s.refs != 1 then s.(refs := s.refs - 1)
    else s.(refs := 0, frees := s.frees + 1,
            core := s.core.(task := false, result := None),
            taskReleases := s.taskReleases + if s.core.task then 1 else 0,
            boxes := if s.core.result.Some? then s.boxes[s.core.result.value := BoxReleased] else s.boxes,
            boxReleases := if s.core.result.Some? then s.boxReleases + multiset{s.core.result.value} else s.boxReleases)
  }

  function Released(s: State, took: bool): State {
    s.(taskReleases := s.taskReleases + if took then 1 else 0)
  }

  function WithCall(s: State, c: nat, pc: CallPc): State
    requires c in s.calls
  {
    s.(calls := s.calls[c := s.calls[c].(pc := pc)])
  }

  function CallStep(s: State, c: nat): State
    requires c in s.calls
  {
    match s.calls[c].pc
    case JoinOs | DetachOs => s
    case JoinWon =>
      WithCall(s, c, JoinEnds(s.core.result, s.core.task))
        .(core := s.core.AfterJoin(), joins := s.joins + 1,
          boxes := if s.core.result.Some? then s.boxes[s.core.result.value := Handed(c)] else s.boxes)
    case DetachWon =>
      WithCall(s, c, DetachEnds(s.core.task && s.core.finished))
        .(core := s.core.AfterDetach(), detaches := s.detaches + 1)
    case JoinLost | DetachLost => s.(calls := s.calls - {c}, core := s.core.(phase := Joinable))
    case JoinEnds(_, took) => Released(s.(calls := s.calls - {c}), took)
    case DetachEnds(took) => Released(s.(calls := s.calls - {c}), took)
  }

  ghost function Apply(s: State, e: Event): State
    requires Enabled(s, e)
  {
    match e
    case Start => s.(creator := Starting, refs := s.refs + 1, core := s.core.(task := true))
    case StartFails => s.(creator := FailDecref, core := s.core.(task := false))
    case CreatorGoesOn => (
      match s.creator
      case FailDecref => Released(s.(creator := FailMark), true)
      case FailMark => s.(creator := FailRelease, core := s.core.(phase := Failed))
      case FailRelease => Unref(s.(creator := Returned))
      case _ => s.(creator := Returned, core := s.core.Published()))
    case Spawn => s.(creator := Publishing, worker := Running)
    case Complete(box) =>
      var s1 := s.(first := if s.first.None? then Some(box) else s.first);
      if s.core.result.None? then s1.(core := s.core.Completed(box), boxes := s.boxes[box := Stored])
      else s1.(boxes := s.boxes[box := BoxReleased], boxReleases := s.boxReleases + multiset{box})
    case TaskReturns => s.(worker := Back)
    case WorkerLocks => s.(worker := Unlocked(s.core.task && s.core.phase.Detached?), core := s.core.AfterCall())
    case WorkerGoesOn =>
      if s.worker.Leaving? then Unref(s.(worker := Terminated))
      else Released(s.(worker := Leaving), s.worker.took)
    case Join(c, onWorker, injected) =>
      if s.core.JoinStatus(onWorker) != 0 || injected then s
      else s.(core := s.core.(phase := Joining), calls := s.calls[c := Call(onWorker, JoinOs)])
    case OsJoin(c, ok) => WithCall(s, c, if ok then JoinWon else JoinLost)
    case Detach(c, onWorker) =>
      if s.core.DetachStatus() != 0 then s
      else s.(core := s.core.(phase := Detaching), calls := s.calls[c := Call(onWorker, DetachOs)])
    case OsDetach(c, ok) => WithCall(s, c, if ok then DetachWon else DetachLost)
    case CallGoesOn(c) => CallStep(s, c)
    case Finalize => if Terminal(s.core.phase) then s.(handle := Checked) else s.(aborted := true)
    case HandleRelease => Unref(s.(handle := Dropped))
  }

  ghost predicate Possible(s: State, es: seq<Event>)
    decreases |es|
  {
    es == [] || (Enabled(s, es[0]) && Possible(Apply(s, es[0]), es[1..]))
  }

  ghost function After(s: State, es: seq<Event>): State
    requires Possible(s, es)
    decreases |es|
  {
    if es == [] then s else After(Apply(s, es[0]), es[1..])
  }

  // ---- invariant ----

  predicate IsJoining(c: Call) { c.pc.JoinOs? || c.pc.JoinWon? || c.pc.JoinLost? }
  predicate IsDetaching(c: Call) { c.pc.DetachOs? || c.pc.DetachWon? || c.pc.DetachLost? }
  predicate HoldsTask(c: Call) { (c.pc.JoinEnds? || c.pc.DetachEnds?) && c.pc.took }
  predicate InOs(c: Call) { c.pc.JoinOs? || c.pc.DetachOs? }

  predicate CreatorHoldsRef(c: CreatorPc) { c.Starting? || c.FailDecref? || c.FailMark? || c.FailRelease? }
  predicate WorkerHoldsRef(w: WorkerPc) { !w.Absent? && !w.Terminated? }

  ghost predicate Refs(s: State) {
    && s.refs == One(!s.handle.Dropped?) + One(CreatorHoldsRef(s.creator)) + One(WorkerHoldsRef(s.worker))
    && s.frees == One(s.refs == 0)
    && (s.refs == 0 ==> s.core.result.None?)
  }

  /** How far creator, worker and lifecycle state have come together. */
  predicate Stages(core: Core, creator: CreatorPc, worker: WorkerPc) {
    && (worker.Absent? <==>
          creator.NotStarted? || CreatorHoldsRef(creator) || (creator.Returned? && core.phase.Failed?))
    && core.started == (creator.Returned? && !core.phase.Failed?)
    && (core.phase.Created? <==> !creator.Returned? && !creator.FailRelease?)
    && (creator.FailRelease? ==> core.phase.Failed?)
    && core.finished == (worker.Unlocked? || worker.Leaving? || worker.Terminated?)
  }

  /** The core owns the task exactly while somebody may still need it to. */
  predicate TaskKept(core: Core, creator: CreatorPc, worker: WorkerPc) {
    && (worker.Running? || worker.Back? ==> core.task)
    && (core.phase.Created? ==> core.task == (creator.Starting? || creator.Publishing?))
    && (core.phase.Joinable? || core.phase.Joining? || core.phase.Detaching? ==> core.task)
    && (core.phase.Joined? || core.phase.Failed? ==> !core.task)
    && (core.phase.Detached? ==> core.task == !core.finished)
    && (core.phase.Joined? ==> worker.Terminated?)
  }

  /** Where a call may stand, given the state it works on. */
  predicate CallFits(call: Call, phase: Phase, worker: WorkerPc, first: Option<nat>) {
    && (call.pc.JoinWon? ==> worker.Terminated?)
    && (call.pc.JoinEnds? ==> phase.Joined? && call.pc.box == first)
    && (call.onWorker ==> worker.Running? && (IsDetaching(call) || call.pc.DetachEnds?))
  }

  ghost predicate CallsFit(cs: map<nat, Call>, phase: Phase, worker: WorkerPc, first: Option<nat>) {
    forall c :: c in cs ==> CallFits(cs[c], phase, worker, first)
  }

  ghost predicate CallsCount(cs: map<nat, Call>, phase: Phase) {
    Count(cs, IsJoining) == One(phase.Joining?) && Count(cs, IsDetaching) == One(phase.Detaching?)
  }

  predicate Successes(phase: Phase, joins: nat, detaches: nat) {
    joins == One(phase.Joined?) && detaches == One(phase.Detached?)
  }

  /** The task is in one place, or has been released once. */
  ghost predicate TaskConserved(s: State) {
    One(s.core.task) + One(s.creator.FailDecref?) + One(s.worker == Unlocked(true))
    + Count(s.calls, HoldsTask) + s.taskReleases == One(!s.creator.NotStarted?)
  }

  ghost predicate HandleDone(s: State) {
    !s.handle.Live? ==> Terminal(s.core.phase) && s.calls == map[] && s.creator.Returned?
  }

  ghost predicate BoxesOwned(result: Option<nat>, boxes: map<nat, BoxOwner>, releases: multiset<nat>) {
    && (result.Some? ==> result.value in boxes && boxes[result.value] == Stored)
    && (forall b :: b in boxes && boxes[b] == Stored ==> result == Some(b))
    && (forall b :: releases[b] == One(b in boxes && boxes[b] == BoxReleased))
  }

  /** Only the join that succeeds hands out a box. */
  ghost predicate HandedOnce(joined: bool, boxes: map<nat, BoxOwner>) {
    && (forall b :: b in boxes && boxes[b].Handed? ==> joined)
    && (forall b, b' :: b in boxes && b' in boxes && boxes[b].Handed? && boxes[b'].Handed? ==> b == b')
  }

  /** The first box stays in the core until a join takes it or the core is freed with it. */
  ghost predicate FirstKept(result: Option<nat>, joined: bool, first: Option<nat>, boxes: map<nat, BoxOwner>,
                            frees: nat) {
    && (first.None? ==> boxes == map[])
    && (first.Some? ==> first.value in boxes)
    && (!joined && frees == 0 ==> result == first)
    && (joined ==> result.None? && (first.Some? ==> boxes[first.value].Handed?))
  }

  /** What becomes of the result boxes. */
  ghost predicate Boxes(s: State) {
    && BoxesOwned(s.core.result, s.boxes, s.boxReleases) && HandedOnce(s.core.phase.Joined?, s.boxes)
    && FirstKept(s.core.result, s.core.phase.Joined?, s.first, s.boxes, s.frees)
    && (s.worker.Absent? ==> s.first.None?)
  }

  ghost predicate Inv(s: State) {
    && Refs(s) && Stages(s.core, s.creator, s.worker) && TaskKept(s.core, s.creator, s.worker)
    && CallsFit(s.calls, s.core.phase, s.worker, s.first) && CallsCount(s.calls, s.core.phase)
    && Successes(s.core.phase, s.joins, s.detaches) && TaskConserved(s) && HandleDone(s)
    && Boxes(s)
  }
}
