/** The wait group: a bounded counter that any number of threads add to and wait on. */
module WaitGroups {
  import opened Threads

  predicate InRange(next: int) { 0 <= next <= INT32_MAX }

  /** What `add` returns, what it leaves in the status cell, and the count it leaves behind. */
  datatype Added = Added(result: bool, status: int, count: int)

  /** The statuses the OS reports; `lock` may also be an injected error. */
  datatype Os = Os(lock: int, broadcast: int, unlock: int)

  function FirstError(status: int, candidate: int): int { if status == 0 then candidate else status }

  function AddOutcome(count: int, delta: int, os: Os): Added {
    var next := count + delta;
    if os.lock != 0 then Added(false, os.lock, count)
    else if !InRange(next) then Added(false, os.unlock, count)
    else
      var status := FirstError(if next == 0 then os.broadcast else 0, os.unlock);
      Added(status == 0, status, next)
  }

  datatype AddResult = Done | OperationFailed(status: int) | InvalidCount

  /** `WaitGroup::add` */
  function Decode(a: Added): AddResult {
    if a.result then Done
    else if a.status != 0 then OperationFailed(a.status)
    else InvalidCount
  }

  class WaitGroupCore {
    var count: int

    ghost predicate Valid()
      reads this
    {
      InRange(count)
    }

    constructor ()
      ensures Valid() && count == 0
    {
      count := 0;
    }

    /** `sync_wait_group_add`. The sum is taken in 64 bits, so it does not wrap. */
    method Add(delta: int, os: Os) returns (result: bool, status: int)
      requires Valid()
      modifies this
      ensures Valid()
      ensures Added(result, status, count) == AddOutcome(old(count), delta, os)
    {
      status := os.lock;
      if status != 0 {
        return false, status;
      }
      var next := count + delta;
      if next < 0 || next > INT32_MAX {
        if status == 0 && os.unlock != 0 {
          status := os.unlock;
        }
        return false, status;
      }
      count := next;
      if count == 0 {
        status := os.broadcast;
      }
      if status == 0 && os.unlock != 0 {
        status := os.unlock;
      }
      return status == 0, status;
    }
  }

  /** An invalid count is reported exactly for a delta out of range, and then nothing has changed. */
  lemma InvalidCountUnchanged(count: int, delta: int, os: Os)
    requires InRange(count)
    ensures var a := AddOutcome(count, delta, os);
      && (Decode(a) == InvalidCount <==> !InRange(count + delta) && os.lock == 0 && os.unlock == 0)
      && (Decode(a) == InvalidCount ==> a.count == count)
      && (Decode(a) == Done ==> a.count == count + delta && a.status == 0)
  {
  }

  /**
    An add that reports failure has changed nothing, unless the OS failed after the count was stored:
    that is the exact exception, and a broadcast that fails on the way to zero is an instance of it.
   */
  lemma RejectedAddUnchanged(count: int, delta: int, os: Os)
    requires InRange(count)
    ensures var a := AddOutcome(count, delta, os);
      (!a.result && a.count != count <==>
        && os.lock == 0 && InRange(count + delta) && delta != 0
        && (os.unlock != 0 || (count + delta == 0 && os.broadcast != 0)))
    ensures AddOutcome(1, -1, Os(0, 5, 0)) == Added(false, 5, 0)
  {
  }

  // ---- the protocol ----

  datatype Pc = Asleep | Woken

  datatype State = State(
    count: int,
    applied: seq<int>,  // the deltas that were stored, in order
    done: seq<int>,     // the deltas of the adds that reported success, in order
    broken: bool,       // some add has reported an error of the OS after its lock
    calls: map<nat, Pc>,
    waits: nat,         // waits that returned 0
    faulted: bool)

  const INITIAL := State(0, [], [], false, map[], 0, false)

  predicate Sleeps(p: Pc) { p.Asleep? }
  predicate NoPc(p: Pc) { false }
  function Wake(p: Pc): Pc { Woken }

  function Sum(ds: seq<int>): int {
    if ds == [] then 0 else Sum(ds[..|ds| - 1]) + ds[|ds| - 1]
  }

  datatype Event =
    | Add(delta: int, os: Os)
    | Test(c: nat)        // wait, or its test after a wake-up
    | Spurious(c: nat)
    | WaitError(c: nat)

  ghost predicate Enabled(s: State, e: Event) {
    match e
    case Add(_, _) => true
    case Test(c) => c in s.calls ==> s.calls[c].Woken?
    case Spurious(c) => c in s.calls && s.calls[c].Asleep?
    case WaitError(c) => c in s.calls && s.calls[c].Woken?
  }

  ghost function Apply(s: State, e: Event): State
    requires Enabled(s, e)
  {
    match e
    case Add(delta, os) =>
      var a := AddOutcome(s.count, delta, os);
      if os.lock != 0 || !InRange(s.count + delta) then s
      else s.(count := a.count, applied := s.applied + [delta],
              done := if Decode(a) == Done then s.done + [delta] else s.done, broken := s.broken || a.status != 0,
              calls := if a.count == 0 && os.broadcast == 0 then Each(s.calls, Wake) else s.calls,
              faulted := s.faulted || (a.count == 0 && os.broadcast != 0))
    case Test(c) =>
      if s.count != 0 then s.(calls := s.calls[c := Asleep])
      else s.(calls := s.calls - {c}, waits := s.waits + 1)
    case Spurious(c) => s.(calls := s.calls[c := Woken])
    case WaitError(c) => s.(calls := s.calls - {c})
  }

  ghost predicate Inv(s: State) {
    && InRange(s.count) && s.count == Sum(s.applied) && (!s.broken ==> s.done == s.applied)
    && (!s.faulted && Count(s.calls, Sleeps) > 0 ==> s.count != 0)
  }

  lemma StepKeeps(s: State, e: Event)
    requires Inv(s) && Enabled(s, e)
    ensures Inv(Apply(s, e))
  {
    match e {
      case Add(delta, _) =>
        assert (s.applied + [delta])[..|s.applied|] == s.applied;
        assert At(s.calls, NoPc) == {};
        CountEach(s.calls, Wake, NoPc, Sleeps);
      case Test(c) =>
        CountPut(s.calls, c, Asleep, Sleeps);
        CountDrop(s.calls, c, Sleeps);
      case Spurious(c) => CountPut(s.calls, c, Woken, Sleeps);
      case WaitError(c) => CountDrop(s.calls, c, Sleeps);
    }
  }

  ghost predicate Possible(s: State, es: seq<Event>)
    decreases |es|
  {
    es == [] || (Enabled(s, es[0]) && Possible(Apply(s, es[0]), es[1..]))
  }

  ghost function After(s: State, es: seq<Event>): State
    requires Possible(s, es)
    decreases |es|
  {
    if es == [] then s else After(Apply(s, es[0]), es[1..])
  }

  lemma {:induction false} RunKeeps(s: State, es: seq<Event>)
    requires Inv(s) && Possible(s, es)
    ensures Inv(After(s, es))
    decreases |es|
  {
    if es != [] {
      StepKeeps(s, es[0]);
      RunKeeps(Apply(s, es[0]), es[1..]);
    }
  }

  /** Over every run, reuse of the group included. */
  lemma CountIsSum(es: seq<Event>)
    requires Possible(INITIAL, es)
    ensures var s := After(INITIAL, es);
      && s.count == Sum(s.applied) && 0 <= s.count <= INT32_MAX
      && (!s.broken ==> s.count == Sum(s.done))
      && (!s.faulted && s.count == 0 ==> forall c :: c in s.calls ==> !Sleeps(s.calls[c]))
  {
    assert At(INITIAL.calls, Sleeps) == {};
    RunKeeps(INITIAL, es);
    CountPositive(After(INITIAL, es).calls, Sleeps);
  }

  /** A wait returns 0 only at a moment when the deltas stored so far cancel out. */
  lemma WaitSawZero(es: seq<Event>, c: nat)
    requires Possible(INITIAL, es) && Enabled(After(INITIAL, es), Test(c))
    ensures var s := After(INITIAL, es);
      Apply(s, Test(c)).waits > s.waits <==> Sum(s.applied) == 0
  {
    CountIsSum(es);
  }

  /** An add stores its delta if and only if the lock succeeds and the sum stays in range, and logs what it reports. */
  lemma AddAnswers(s: State, delta: int, os: Os)
    requires Inv(s)
    ensures var t, a := Apply(s, Add(delta, os)), AddOutcome(s.count, delta, os);
      && t.count == a.count && t.waits == s.waits && t.calls.Keys == s.calls.Keys
      && t.applied == (if os.lock == 0 && InRange(s.count + delta) then s.applied + [delta] else s.applied)
      && t.done == (if Decode(a) == Done then s.done + [delta] else s.done)
      && (t.broken ==> s.broken || (os.lock == 0 && (os.unlock != 0 || (a.count == 0 && os.broadcast != 0))))
      && (t.faulted ==> s.faulted || (a.count == 0 && os.broadcast != 0))
  {
  }

  /** A wait sleeps if and only if the count is not zero, and a woken one can always look again. */
  lemma WaitAnswers(s: State, c: nat)
    requires c in s.calls ==> s.calls[c].Woken?
    ensures Enabled(s, Test(c))
    ensures var t := Apply(s, Test(c));
      && t == s.(calls := t.calls, waits := s.waits + One(s.count == 0))
      && t.calls == if s.count == 0 then s.calls - {c} else s.calls[c := Asleep]
  {
  }
}
