/** What joins, detaches and the finalizer of a thread answer, and that they can be brought to an end. */
module LifecycleAnswers {
  import opened Threads
  import opened ThreadCores
  import opened Lifecycles
  import opened LifecycleProofs

  /** In every reachable state a thread counts as started once it is neither new nor failed. */
  lemma StartedIff(s: State)
    requires Reachable(s)
    ensures s.core.started <==> !s.core.phase.Created? && !s.core.phase.Failed?
    ensures s.creator.Returned? ==> (s.core.phase.Failed? <==> s.worker.Absent?) && !s.core.phase.Created?
  {
    ReachableHolds(s);
  }

  /**
    A join goes on to the OS if and only if the thread is joinable, the caller is not its worker and no
    error is injected; otherwise it changes nothing. The wrapper's exception names the phase.
   */
  lemma JoinAnswers(s: State, c: nat, onWorker: bool, injected: bool)
    requires Reachable(s) && Enabled(s, Join(c, onWorker, injected))
    ensures var t := Apply(s, Join(c, onWorker, injected));
      if s.core.phase.Joinable? && !onWorker && !injected then
        t == s.(core := s.core.(phase := Joining), calls := s.calls[c := Call(false, JoinOs)])
      else t == s
    ensures DecodeJoin(s.core.JoinStatus(onWorker)) ==
            if s.core.phase.Joinable? && onWorker then OnItself else Expected(s.core.phase)
  {
    StartedIff(s);
  }

  /** A detach may also come from the worker. */
  lemma DetachAnswers(s: State, c: nat, onWorker: bool)
    requires Reachable(s) && Enabled(s, Detach(c, onWorker))
    ensures var t := Apply(s, Detach(c, onWorker));
      if s.core.phase.Joinable? then
        t == s.(core := s.core.(phase := Detaching), calls := s.calls[c := Call(onWorker, DetachOs)])
      else t == s
    ensures DecodeDetach(s.core.DetachStatus()) == Expected(s.core.phase)
  {
    StartedIff(s);
  }

  /** Dropping the handle aborts unless the thread was joined or detached, or could not be started. */
  lemma FinalizeAnswers(s: State)
    requires Reachable(s) && Enabled(s, Finalize)
    ensures var t := Apply(s, Finalize);
      && (t.aborted <==> s.joins + s.detaches == 0 && !s.core.phase.Failed?)
      && (!t.aborted ==> t == s.(handle := Checked))
  {
    ReachableHolds(s);
  }

  // ---- a join can be brought to an end ----

  lemma Prepend(s: State, e: Event, es: seq<Event>)
    requires Enabled(s, e) && Possible(Apply(s, e), es)
    ensures Possible(s, [e] + es) && After(s, [e] + es) == After(Apply(s, e), es)
  {
    assert ([e] + es)[1..] == es;
  }

  /** Three steps in a row. */
  lemma Three(s: State, e0: Event, e1: Event, e2: Event) returns (es: seq<Event>)
    requires Enabled(s, e0) && Enabled(Apply(s, e0), e1) && Enabled(Apply(Apply(s, e0), e1), e2)
    ensures Possible(s, es) && After(s, es) == Apply(Apply(Apply(s, e0), e1), e2)
  {
    var s1 := Apply(s, e0);
    var s2 := Apply(s1, e1);
    assert Possible(Apply(s2, e2), []);
    Prepend(s2, e2, []);
    Prepend(s1, e1, [e2] + []);
    Prepend(s, e0, [e1] + ([e2] + []));
    es := [e0] + ([e1] + ([e2] + []));
  }

  /** A thread that waits to be joined or detached; nobody is at it. */
  ghost predicate Idle(s: State) {
    Inv(s) && !s.aborted && s.handle.Live? && s.core.phase.Joinable? && s.calls == map[]
  }

  function Ahead(w: WorkerPc): nat {
    match w
    case Running => 4
    case Back => 3
    case Unlocked(_) => 2
    case Leaving => 1
    case _ => 0
  }

  /** The next thing the worker does. */
  lemma WorkerMoves(s: State) returns (e: Event)
    requires Idle(s) && !s.worker.Terminated?
    ensures Enabled(s, e) && Idle(Apply(s, e)) && Apply(s, e).first == s.first
    ensures Ahead(Apply(s, e).worker) < Ahead(s.worker)
  {
    e := match s.worker
         case Running => TaskReturns
         case Back => WorkerLocks
         case _ => WorkerGoesOn;
    StepKeeps(s, e);
  }

  /** The run `es` ends with a join by `c` that has succeeded and returns the first box of `s`. */
  ghost predicate Joins(s: State, es: seq<Event>, c: nat) {
    && Possible(s, es)
    && var t := After(s, es);
       t.joins == 1 && c in t.calls && t.calls[c].pc.JoinEnds? && t.calls[c].pc.box == s.first && t.first == s.first
  }

  /** The join of a thread that has ended succeeds at once. */
  lemma JoinsEnded(s: State, c: nat) returns (es: seq<Event>)
    requires Idle(s) && s.worker.Terminated?
    ensures Joins(s, es, c)
  {
    var e0, e1, e2 := Join(c, false, false), OsJoin(c, true), CallGoesOn(c);
    var s1 := Apply(s, e0);
    var s2 := Apply(s1, e1);
    StepKeeps(s, e0);
    StepKeeps(s1, e1);
    StepKeeps(s2, e2);
    es := Three(s, e0, e1, e2);
  }

  /** Left alone, the worker comes to its end, and then the join succeeds. */
  lemma {:induction false} JoinsIdle(s: State, c: nat) returns (es: seq<Event>)
    requires Idle(s)
    ensures Joins(s, es, c)
    decreases Ahead(s.worker)
  {
    if s.worker.Terminated? {
      es := JoinsEnded(s, c);
    } else {
      var e := WorkerMoves(s);
      var rest := JoinsIdle(Apply(s, e), c);
      Prepend(s, e, rest);
      es := [e] + rest;
    }
  }

  /** From every reachable state in which nobody else is at it, a join can be brought to success. */
  lemma JoinCanFinish(s: State, c: nat) returns (es: seq<Event>)
    requires Reachable(s) && !s.aborted && s.handle.Live? && s.core.phase.Joinable? && s.calls == map[]
    ensures Joins(s, es, c)
  {
    ReachableHolds(s);
    es := JoinsIdle(s, c);
  }

  /** So can a detach, at once. */
  lemma DetachCanFinish(s: State, c: nat) returns (es: seq<Event>)
    requires Reachable(s) && !s.aborted && s.handle.Live? && s.core.phase.Joinable? && s.calls == map[]
    ensures Possible(s, es) && After(s, es).detaches == 1 && After(s, es).core.phase.Detached?
  {
    var e0, e1, e2 := Detach(c, false), OsDetach(c, true), CallGoesOn(c);
    DetachAnswers(s, c, false);
    var s1 := s.(core := s.core.(phase := Detaching), calls := s.calls[c := Call(false, DetachOs)]);
    var s2 := WithCall(s1, c, DetachWon);
    assert Apply(s, e0) == s1 && Apply(s1, e1) == s2;
    ReachableHolds(s);
    es := Three(s, e0, e1, e2);
  }
}
