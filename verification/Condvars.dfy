/**
  The mutex with its owner record and the condition-variable wait that consults it. The record is
  written a field at a time, and goes stale while a waiter has released the mutex.
 */
module Condvars {
  import opened Threads

  /** The fields that `sync_condvar_wait` tests. Thread ids are not 0, which stands for nobody. */
  datatype Record = Record(owner: nat, locked: bool)

  predicate Passes(r: Record, id: nat) { r.locked && r.owner == id }

  class MutexCore {
    var owner: nat
    var locked: bool

    ghost function View(): Record
      reads this
    {
      Record(owner, locked)
    }

    constructor ()
      ensures View() == Record(0, false)
    {
      owner, locked := 0, false;
    }

    /** After the OS lock, or after a wait that returned 0: the test passes for this thread alone. */
    method Take(id: nat)
      requires id != 0
      modifies this
      ensures View() == Record(id, true) && forall t :: Passes(View(), t) <==> t == id
    {
      owner := id;
      locked := true;
    }

    /** Before the OS unlock: the test passes for nobody. */
    method Clear()
      modifies this
      ensures View() == Record(0, false) && forall t :: !Passes(View(), t)
    {
      locked := false;
      owner := 0;
    }

    /** The guard of `sync_condvar_wait`. */
    method MayWait(id: nat) returns (ok: bool)
      ensures ok == Passes(View(), id)
    {
      if !locked || owner != id {
        return false;
      }
      ok := true;
    }
  }

  datatype Pc =
    | Outside
    | Acquired | OwnerSet          // inside lock_get, holding the OS mutex
    | Holding                      // between calls, inside the critical section
    | LockedCleared | OwnerCleared // inside release_unlock
    | Waiting                      // inside wait, mutex released
    | Back | BackOwnerSet          // inside wait, mutex acquired again
    | LateFailed                   // between calls: a wait reported an error after it had released the mutex
    | StillLocked                  // between calls: the OS unlock reported an error after the record was cleared

  datatype State = State(rec: Record, holder: Option<nat>, pcs: map<nat, Pc>)

  function PcOf(s: State, t: nat): Pc { if t in s.pcs then s.pcs[t] else Outside }

  const INITIAL := State(Record(0, false), None, map[])

  datatype Step =
    | OsLock | SetOwner | SetLocked
    | ClearLocked | ClearOwner | OsUnlock | UnlockFails
    | Wait        // the guard, and cond_wait if it passes
    | WaitFails   // cond_wait reports an error before releasing the mutex
    | WaitBack    // cond_wait has the mutex again
    | WaitLateError

  /** Not inside a call, inside the critical section. */
  predicate HasLock(p: Pc) { p.Holding? || p.LateFailed? || p.StillLocked? }

  /** Not inside a call. */
  predicate Resting(p: Pc) { p.Outside? || HasLock(p) }

  ghost predicate Enabled(s: State, t: nat, e: Step) {
    t != 0 &&
    match e
    case OsLock => PcOf(s, t).Outside? && s.holder.None?
    case SetOwner => PcOf(s, t).Acquired? || PcOf(s, t).Back?
    case SetLocked => PcOf(s, t).OwnerSet? || PcOf(s, t).BackOwnerSet?
    case ClearLocked => HasLock(PcOf(s, t))
    case ClearOwner => PcOf(s, t).LockedCleared?
    case OsUnlock => PcOf(s, t).OwnerCleared?
    case UnlockFails => PcOf(s, t).OwnerCleared?
    case Wait => Resting(PcOf(s, t))
    case WaitFails => HasLock(PcOf(s, t)) && Passes(s.rec, t)
    case WaitBack => PcOf(s, t).Waiting? && s.holder.None?
    case WaitLateError => PcOf(s, t).Back?
  }

  function Moved(s: State, t: nat, p: Pc): State { s.(pcs := s.pcs[t := p]) }

  ghost function Apply(s: State, t: nat, e: Step): State
    requires Enabled(s, t, e)
  {
    match e
    case OsLock => Moved(s, t, Acquired).(holder := Some(t))
    case SetOwner =>
      Moved(s, t, if PcOf(s, t).Acquired? then OwnerSet else BackOwnerSet).(rec := s.rec.(owner := t))
    case SetLocked => Moved(s, t, Holding).(rec := s.rec.(locked := true))
    case ClearLocked => Moved(s, t, LockedCleared).(rec := s.rec.(locked := false))
    case ClearOwner => Moved(s, t, OwnerCleared).(rec := s.rec.(owner := 0))
    case OsUnlock => Moved(s, t, Outside).(holder := None)
    case UnlockFails => Moved(s, t, StillLocked)
    case Wait => if Passes(s.rec, t) then Moved(s, t, Waiting).(holder := None) else s  // otherwise it returns -1
    case WaitFails => s
    case WaitBack => Moved(s, t, Back).(holder := Some(t))
    case WaitLateError => Moved(s, t, LateFailed)
  }

  predicate Inside(p: Pc) { !p.Outside? && !p.Waiting? }

  /** What the record says while its thread stands at `p`. */
  predicate Agrees(r: Record, t: nat, p: Pc) {
    match p
    case Outside | Acquired | OwnerCleared | StillLocked => r.owner != t
    case OwnerSet | BackOwnerSet => r.owner == t
    case Holding => r.owner == t && r.locked
    case LockedCleared => !r.locked
    case Waiting | Back | LateFailed => true
  }

  ghost predicate Inv(s: State) {
    && (forall t: nat :: t != 0 ==> (Inside(PcOf(s, t)) <==> s.holder == Some(t)))
    && (forall t: nat :: t != 0 ==> Agrees(s.rec, t, PcOf(s, t)))
  }

  lemma StepKeeps(s: State, t: nat, e: Step)
    requires Inv(s) && Enabled(s, t, e)
    ensures Inv(Apply(s, t, e))
  {
    var s' := Apply(s, t, e);
    assert forall u: nat :: u != t ==> PcOf(s', u) == PcOf(s, u);
  }

  ghost predicate Possible(s: State, es: seq<(nat, Step)>)
    decreases |es|
  {
    es == [] || (Enabled(s, es[0].0, es[0].1) && Possible(Apply(s, es[0].0, es[0].1), es[1..]))
  }

  ghost function After(s: State, es: seq<(nat, Step)>): State
    requires Possible(s, es)
    decreases |es|
  {
    if es == [] then s else After(Apply(s, es[0].0, es[0].1), es[1..])
  }

  lemma {:induction false} RunKeeps(s: State, es: seq<(nat, Step)>)
    requires Inv(s) && Possible(s, es)
    ensures Inv(After(s, es))
    decreases |es|
  {
    if es != [] {
      StepKeeps(s, es[0].0, es[0].1);
      RunKeeps(Apply(s, es[0].0, es[0].1), es[1..]);
    }
  }

  ghost predicate Reachable(s: State) {
    exists es: seq<(nat, Step)> :: Possible(INITIAL, es) && s == After(INITIAL, es)
  }

  lemma ReachableHolds(s: State)
    requires Reachable(s)
    ensures Inv(s)
  {
    var es: seq<(nat, Step)> :| Possible(INITIAL, es) && s == After(INITIAL, es);
    RunKeeps(INITIAL, es);
  }

  /**
    For a thread that is not inside a call, passing the test implies holding the mutex, in every run.
    The converse holds too unless its own last wait or unlock has failed late; after a failed unlock
    the holder never passes.
   */
  lemma GuardIsExact(s: State, t: nat)
    requires Reachable(s) && t != 0 && Resting(PcOf(s, t))
    ensures Passes(s.rec, t) ==> s.holder == Some(t)
    ensures PcOf(s, t).Outside? || PcOf(s, t).Holding? ==> (Passes(s.rec, t) <==> s.holder == Some(t))
    ensures PcOf(s, t).LateFailed? || PcOf(s, t).StillLocked? ==> s.holder == Some(t)
    ensures PcOf(s, t).StillLocked? ==> !Passes(s.rec, t)
  {
    ReachableHolds(s);
  }

  /** The answer cannot change under a resting thread, so reading the two fields one by one is safe. */
  lemma GuardIsStable(s: State, t: nat, u: nat, e: Step)
    requires Reachable(s) && t != 0 && Resting(PcOf(s, t)) && u != t && Enabled(s, u, e)
    ensures s.holder == Some(t) ==> Apply(s, u, e).rec == s.rec
    ensures s.holder != Some(t) ==> s.rec.owner != t && Apply(s, u, e).rec.owner != t
  {
    ReachableHolds(s);
  }

  /**
    A wait therefore releases exactly a mutex that its caller holds, and refuses anybody else. Only the
    two kinds of holders named above can be refused.
   */
  lemma WaitReleasesOwnMutex(s: State, t: nat)
    requires Reachable(s) && Enabled(s, t, Wait)
    ensures var u := Apply(s, t, Wait);
      && (s.holder != Some(t) ==> u == s)
      && (u != s ==> s.holder == Some(t) && u.holder == None && PcOf(u, t) == Waiting && u.rec == s.rec)
      && (s.holder == Some(t) && !PcOf(s, t).LateFailed? && !PcOf(s, t).StillLocked? ==> u != s)
  {
    GuardIsExact(s, t);
  }

  /** A thread that is not inside a call can wait if it holds the mutex and lock it if nobody does, and is inside. */
  lemma LockAnswers(s: State, t: nat)
    requires Reachable(s) && t != 0 && PcOf(s, t).Outside? && s.holder.None?
    ensures Enabled(s, t, OsLock) && Apply(s, t, OsLock).holder == Some(t)
  {
  }

  // ---- the two ways to hold the mutex without passing ----

  lemma Locked(s: State, t: nat) returns (u: State)
    requires Reachable(s) && t != 0 && PcOf(s, t).Outside? && s.holder.None?
    ensures Reachable(u) && u == State(Record(t, true), Some(t), s.pcs[t := Holding])
  {
    u := Go(s, t, OsLock);
    u := Go(u, t, SetOwner);
    u := Go(u, t, SetLocked);
    assert u.pcs == s.pcs[t := Holding];
  }

  /** The record has been cleared, the OS unlock is next. */
  lemma Cleared(s: State, t: nat) returns (u: State)
    requires Reachable(s) && t != 0 && PcOf(s, t).Holding?
    ensures Reachable(u) && u == State(Record(0, false), s.holder, s.pcs[t := OwnerCleared])
  {
    u := Go(s, t, ClearLocked);
    u := Go(u, t, ClearOwner);
    assert u.pcs == s.pcs[t := OwnerCleared];
  }

  lemma Start() returns (s: State)
    ensures Reachable(s) && s == INITIAL
  {
    s := INITIAL;
    assert Possible(INITIAL, []) && After(INITIAL, []) == INITIAL;
  }

  /** Were a wait to fail only after releasing the mutex, its caller could hold it and not pass the test. */
  lemma LateErrorBreaksGuard() returns (s: State)
    ensures Reachable(s) && PcOf(s, 1).LateFailed? && s.holder == Some(1) && !Passes(s.rec, 1)
  {
    s := Start();
    s := Locked(s, 1);
    s := Go(s, 1, Wait);
    s := Locked(s, 2);
    s := Cleared(s, 2);
    s := Go(s, 2, OsUnlock);
    s := Go(s, 1, WaitBack);
    s := Go(s, 1, WaitLateError);
  }

  /** A failed unlock leaves its caller with the mutex and without the record. */
  lemma UnlockErrorBreaksGuard() returns (s: State)
    ensures Reachable(s) && PcOf(s, 1).StillLocked? && s.holder == Some(1) && !Passes(s.rec, 1)
  {
    s := Start();
    s := Locked(s, 1);
    s := Cleared(s, 1);
    s := Go(s, 1, UnlockFails);
  }

  lemma Go(s: State, t: nat, e: Step) returns (u: State)
    requires Reachable(s) && Enabled(s, t, e)
    ensures Reachable(u) && u == Apply(s, t, e)
  {
    var es: seq<(nat, Step)> :| Possible(INITIAL, es) && s == After(INITIAL, es);
    Extend(INITIAL, es, t, e);
    u := Apply(s, t, e);
  }

  lemma {:induction false} Extend(s: State, es: seq<(nat, Step)>, t: nat, e: Step)
    requires Possible(s, es) && Enabled(After(s, es), t, e)
    ensures Possible(s, es + [(t, e)]) && After(s, es + [(t, e)]) == Apply(After(s, es), t, e)
    decreases |es|
  {
    if es == [] {
      assert es + [(t, e)] == [(t, e)] && [(t, e)][1..] == [];
      assert Possible(Apply(s, t, e), []);
    } else {
      Extend(Apply(s, es[0].0, es[0].1), es[1..], t, e);
      assert (es + [(t, e)])[1..] == es[1..] + [(t, e)];
    }
  }
}
