/** Once-initialization: any number of callers of `call_once` on shared handles. */
module Onces {
  import opened Threads

  datatype Phase = Fresh | InProgress | Complete | Poisoned

  /** What `sync_once_begin` decides under the lock: sleep, run the initializer, or return. */
  datatype Turn = Sleep | Run | ReturnOk | RaisePoisoned

  function Begin(p: Phase): Turn {
    match p
    case Fresh => Run
    case InProgress => Sleep
    case Complete => ReturnOk
    case Poisoned => RaisePoisoned
  }

  class OnceCore {
    var state: Phase

    constructor ()
      ensures state == Fresh
    {
      state := Fresh;
    }

    /** One pass of `sync_once_begin` from a lock or a wake-up to an unlock or a wait. */
    method BeginPass() returns (turn: Turn)
      modifies this
      ensures turn == Begin(old(state))
      ensures state == if turn == Run then InProgress else old(state)
    {
      if state == InProgress {
        return Sleep;
      }
      if state == Fresh {
        state := InProgress;
        turn := Run;
      } else {
        turn := if state == Complete then ReturnOk else RaisePoisoned;
      }
    }

    /** `sync_once_complete` and `sync_once_poison`: from now on a pass of begin returns or raises at once. */
    method Settle(ok: bool)
      modifies this
      ensures Begin(state) == if ok then ReturnOk else RaisePoisoned
    {
      state := if ok then Complete else Poisoned;
    }
  }

  datatype Pc = Asleep | Woken | Initializing | Settling(ok: bool)

  datatype State = State(
    phase: Phase, calls: map<nat, Pc>,
    starts: nat,      // how often an initializer has been called
    ran: bool,        // an initializer has returned normally
    raised: bool,     // an initializer has raised
    returned: nat,    // calls of `call_once` that returned normally
    refused: nat,     // calls of `call_once` that raised because the once is poisoned
    faulted: bool)    // a lock, unlock, wait or broadcast has failed

  const INITIAL := State(Fresh, map[], 0, false, false, 0, 0, false)

  predicate Sleeps(p: Pc) { p.Asleep? }
  predicate Works(p: Pc) { p.Initializing? || p.Settling? }
  function Wake(p: Pc): Pc { if p.Asleep? then Woken else p }

  datatype Step =
    | Pass                            // begin, or its test after a wake-up
    | PassUnlockFails                 // the decision is taken, then the unlock reports an error
    | Spurious | WaitError
    | InitializerReturns | InitializerRaises
    | Settle(woken: bool)             // complete or poison, with its broadcast
    | SettleLockFails

  ghost predicate Enabled(s: State, c: nat, e: Step) {
    match e
    case Pass => c in s.calls ==> s.calls[c].Woken?
    case PassUnlockFails => c in s.calls ==> s.calls[c].Woken?
    case Spurious => c in s.calls && s.calls[c].Asleep?
    case WaitError => c in s.calls && s.calls[c].Woken?
    case InitializerReturns => c in s.calls && s.calls[c].Initializing?
    case InitializerRaises => c in s.calls && s.calls[c].Initializing?
    case Settle(_) => c in s.calls && s.calls[c].Settling?
    case SettleLockFails => c in s.calls && s.calls[c].Settling?
  }

  ghost function Apply(s: State, c: nat, e: Step): State
    requires Enabled(s, c, e)
  {
    match e
    case Pass => (
      match Begin(s.phase)
      case Run => s.(phase := InProgress, calls := s.calls[c := Initializing], starts := s.starts + 1)
      case Sleep => s.(calls := s.calls[c := Asleep])
      case ReturnOk => s.(calls := s.calls - {c}, returned := s.returned + 1)
      case RaisePoisoned => s.(calls := s.calls - {c}, refused := s.refused + 1))
    case PassUnlockFails =>
      if s.phase == InProgress then s
      else s.(phase := if s.phase == Fresh then InProgress else s.phase, calls := s.calls - {c}, faulted := true)
    case Spurious => s.(calls := s.calls[c := Woken])
    case WaitError => s.(calls := s.calls - {c}, faulted := true)
    case InitializerReturns => s.(calls := s.calls[c := Settling(true)], ran := true)
    case InitializerRaises => s.(calls := s.calls[c := Settling(false)], raised := true)
    case Settle(woken) =>
      var ok := s.calls[c].ok;
      s.(phase := if ok then Complete else Poisoned,
         calls := (if woken then Each(s.calls, Wake) else s.calls) - {c},
         returned := s.returned + (if ok && woken then 1 else 0), faulted := s.faulted || !woken)
    case SettleLockFails => s.(calls := s.calls - {c}, faulted := true)
  }

  /** A caller completes what returned and poisons what raised. */
  predicate Progress(p: Pc, ran: bool, raised: bool) {
    && (p.Initializing? ==> !ran && !raised)
    && (p.Settling? ==> ran == p.ok && raised == !p.ok)
  }

  ghost predicate Inv(s: State) {
    && s.starts <= 1 && Count(s.calls, Works) <= s.starts
    && (Count(s.calls, Works) > 0 ==> s.phase.InProgress?)
    && (s.phase.Fresh? ==> s.starts == 0)
    && (s.phase.Complete? ==> s.ran) && (s.phase.Poisoned? ==> s.raised)
    && (s.ran || s.raised ==> s.starts == 1) && !(s.ran && s.raised)
    && (s.returned > 0 ==> s.phase.Complete?) && (s.refused > 0 ==> s.phase.Poisoned?)
    && (forall c :: c in s.calls && Works(s.calls[c]) ==> Progress(s.calls[c], s.ran, s.raised))
    && (!s.faulted && s.phase.InProgress? ==> Count(s.calls, Works) == 1)
    && (!s.faulted && Count(s.calls, Sleeps) > 0 ==> s.phase.InProgress?)
  }

  predicate NoPc(p: Pc) { false }

  lemma CallMoves(cs: map<nat, Pc>, c: nat, p: Pc)
    ensures Count(cs[c := p], Works) == Count(cs, Works) - Here(cs, c, Works) + One(Works(p))
    ensures Count(cs[c := p], Sleeps) == Count(cs, Sleeps) - Here(cs, c, Sleeps) + One(Sleeps(p))
  {
    CountPut(cs, c, p, Works);
    CountPut(cs, c, p, Sleeps);
  }

  lemma CallEnds(cs: map<nat, Pc>, c: nat)
    ensures Count(cs - {c}, Works) == Count(cs, Works) - Here(cs, c, Works)
    ensures Count(cs - {c}, Sleeps) == Count(cs, Sleeps) - Here(cs, c, Sleeps)
  {
    CountDrop(cs, c, Works);
    CountDrop(cs, c, Sleeps);
  }

  lemma AllWake(cs: map<nat, Pc>)
    ensures Count(Each(cs, Wake), Works) == Count(cs, Works) && Count(Each(cs, Wake), Sleeps) == 0
  {
    CountEach(cs, Wake, Works, Works);
    assert Threads.At(cs, NoPc) == {};
    CountEach(cs, Wake, NoPc, Sleeps);
  }

  lemma PassKeeps(s: State, c: nat)
    requires Inv(s) && Enabled(s, c, Pass)
    ensures Inv(Apply(s, c, Pass))
  {
    match Begin(s.phase) {
      case Run => CallMoves(s.calls, c, Initializing);
      case Sleep => CallMoves(s.calls, c, Asleep);
      case _ => CallEnds(s.calls, c);
    }
  }

  /** A call ends with an error, in its pass, its wait or its last lock. */
  lemma ErrorKeeps(s: State, c: nat, e: Step)
    requires Inv(s) && Enabled(s, c, e) && (e.PassUnlockFails? || e.WaitError? || e.SettleLockFails?)
    ensures Inv(Apply(s, c, e))
  {
    CallEnds(s.calls, c);
  }

  lemma MoveKeeps(s: State, c: nat, e: Step)
    requires Inv(s) && Enabled(s, c, e) && (e.Spurious? || e.InitializerReturns? || e.InitializerRaises?)
    ensures Inv(Apply(s, c, e))
  {
    CallMoves(s.calls, c, Apply(s, c, e).calls[c]);
    CountPositive(s.calls, Works);
    if Works(s.calls[c]) {
      OneWorks(s.calls, c);
    }
  }

  /** At most one caller is at work. */
  lemma OneWorks(cs: map<nat, Pc>, c: nat)
    requires Count(cs, Works) <= 1 && c in cs && Works(cs[c])
    ensures forall d :: d in cs && Works(cs[d]) ==> d == c
  {
    CallEnds(cs, c);
    CountPositive(cs - {c}, Works);
    forall d | d in cs && Works(cs[d]) ensures d == c {
      assert d != c ==> d in cs - {c};
    }
  }

  lemma SettleKeeps(s: State, c: nat, woken: bool)
    requires Inv(s) && Enabled(s, c, Settle(woken))
    ensures Inv(Apply(s, c, Settle(woken)))
  {
    var cs := if woken then Each(s.calls, Wake) else s.calls;
    AllWake(s.calls);
    CallEnds(cs, c);
    CountPositive(s.calls, Works);
    CountPositive(cs - {c}, Works);
  }

  lemma StepKeeps(s: State, c: nat, e: Step)
    requires Inv(s) && Enabled(s, c, e)
    ensures Inv(Apply(s, c, e))
  {
    match e {
      case Pass => PassKeeps(s, c);
      case Spurious => MoveKeeps(s, c, e);
      case InitializerReturns => MoveKeeps(s, c, e);
      case InitializerRaises => MoveKeeps(s, c, e);
      case Settle(woken) => SettleKeeps(s, c, woken);
      case _ => ErrorKeeps(s, c, e);
    }
  }

  ghost predicate Possible(s: State, es: seq<(nat, Step)>)
    decreases |es|
  {
    es == [] || (Enabled(s, es[0].0, es[0].1) && Possible(Apply(s, es[0].0, es[0].1), es[1..]))
  }

  ghost function After(s: State, es: seq<(nat, Step)>): State
    requires Possible(s, es)
    decreases |es|
  {
    if es == [] then s else After(Apply(s, es[0].0, es[0].1), es[1..])
  }

  lemma {:induction false} RunKeeps(s: State, es: seq<(nat, Step)>)
    requires Inv(s) && Possible(s, es)
    ensures Inv(After(s, es))
    decreases |es|
  {
    if es != [] {
      StepKeeps(s, es[0].0, es[0].1);
      RunKeeps(Apply(s, es[0].0, es[0].1), es[1..]);
    }
  }

  /** Over every run: one start at most, a normal return only after success, no sleeper without an initializer. */
  lemma OnceOnly(es: seq<(nat, Step)>)
    requires Possible(INITIAL, es)
    ensures var s := After(INITIAL, es);
      && s.starts <= 1
      && (s.returned > 0 ==> s.phase == Complete && s.ran && s.starts == 1)
      && (s.refused > 0 ==> s.phase == Poisoned && s.raised && s.starts == 1)
      && !(s.ran && s.raised)
      && (!s.faulted && (exists c :: c in s.calls && Sleeps(s.calls[c])) ==>
            exists d :: d in s.calls && Works(s.calls[d]))
  {
    assert Threads.At(INITIAL.calls, Works) == {} && Threads.At(INITIAL.calls, Sleeps) == {};
    RunKeeps(INITIAL, es);
    var s := After(INITIAL, es);
    CountPositive(s.calls, Sleeps);
    CountPositive(s.calls, Works);
  }

  /** Complete and poisoned are final, whatever happens afterwards. */
  lemma {:induction false} Absorbing(s: State, es: seq<(nat, Step)>)
    requires Inv(s) && Possible(s, es) && (s.phase.Complete? || s.phase.Poisoned?)
    ensures After(s, es).phase == s.phase && After(s, es).starts == s.starts
    decreases |es|
  {
    if es != [] {
      CountPositive(s.calls, Works);
      StepKeeps(s, es[0].0, es[0].1);
      Absorbing(Apply(s, es[0].0, es[0].1), es[1..]);
    }
  }

  /**
    Complete or poison, with its broadcast: the initializer has returned or raised, and not both.
    Afterwards nobody sleeps and no initializer runs, and however the run goes on every pass of begin
    returns if it returned and raises if it raised.
   */
  lemma SettleReleases(es: seq<(nat, Step)>, c: nat, later: seq<(nat, Step)>)
    requires Possible(INITIAL, es) && Enabled(After(INITIAL, es), c, Settle(true))
    requires Possible(Apply(After(INITIAL, es), c, Settle(true)), later)
    ensures var s := After(INITIAL, es);
      var t := Apply(s, c, Settle(true));
      && (forall d :: d in t.calls ==> !Sleeps(t.calls[d]) && !Works(t.calls[d]))
      && s.ran != s.raised && Begin(After(t, later).phase) == (if s.ran then ReturnOk else RaisePoisoned)
      && After(t, later).starts == 1
  {
    var s := After(INITIAL, es);
    assert Threads.At(INITIAL.calls, Works) == {} && Threads.At(INITIAL.calls, Sleeps) == {};
    RunKeeps(INITIAL, es);
    var t := Apply(s, c, Settle(true));
    SettleKeeps(s, c, true);
    CountPositive(s.calls, Works);
    CountPositive(t.calls, Works);
    Absorbing(t, later);
  }

  /**
    What a pass of `call_once` does follows from the history alone. The first one starts the
    initializer; those that come while it is at work sleep; those that come later return if it
    returned and raise if it raised.
   */
  lemma CallOnceAnswers(es: seq<(nat, Step)>, c: nat)
    requires Possible(INITIAL, es) && Enabled(After(INITIAL, es), c, Pass) && !After(INITIAL, es).faulted
    ensures var s := After(INITIAL, es);
      var t := Apply(s, c, Pass);
      && (s.starts == 0 ==> t.calls == s.calls[c := Initializing] && t.starts == 1)
      && (s.starts == 1 && Count(s.calls, Works) > 0 ==> t == s.(calls := s.calls[c := Asleep]))
      && (s.ran && Count(s.calls, Works) == 0 ==> t == s.(calls := s.calls - {c}, returned := s.returned + 1))
      && (s.raised && Count(s.calls, Works) == 0 ==> t == s.(calls := s.calls - {c}, refused := s.refused + 1))
      && (s.starts == 0 || Count(s.calls, Works) > 0 || s.ran || s.raised)
  {
    assert Threads.At(INITIAL.calls, Works) == {} && Threads.At(INITIAL.calls, Sleeps) == {};
    RunKeeps(INITIAL, es);
  }

  /** Whoever completes or poisons without an error of the OS is told how the initializer ended. */
  lemma SettleAnswers(es: seq<(nat, Step)>, c: nat)
    requires Possible(INITIAL, es) && Enabled(After(INITIAL, es), c, Settle(true))
    ensures var s := After(INITIAL, es);
      var t := Apply(s, c, Settle(true));
      && t.returned == s.returned + One(s.ran) && t.phase == (if s.ran then Complete else Poisoned) && c !in t.calls
  {
    assert Threads.At(INITIAL.calls, Works) == {} && Threads.At(INITIAL.calls, Sleeps) == {};
    RunKeeps(INITIAL, es);
  }

  /** The OS calls of a step that report an error. */
  predicate OsFails(e: Step) {
    e.PassUnlockFails? || e.WaitError? || e.SettleLockFails? || e == Settle(false)
  }

  lemma FaultsComeFromOs(s: State, c: nat, e: Step)
    requires Enabled(s, c, e)
    ensures Apply(s, c, e).faulted ==> s.faulted || OsFails(e)
  {
  }

  /** A call that is awake has a next step that is not an error of the OS. */
  lemma CallGoesOn(s: State, c: nat) returns (e: Step)
    requires c in s.calls && !Sleeps(s.calls[c])
    ensures Enabled(s, c, e) && !OsFails(e)
  {
    e := match s.calls[c]
         case Initializing => InitializerReturns
         case Settling(_) => Settle(true)
         case _ => Pass;
  }

  // ---- an error that is not made good ----

  /** In progress with nobody at work: no initializer is ever going to run, and nobody ever returns. */
  lemma {:induction false} StrandedForever(s: State, es: seq<(nat, Step)>)
    requires Inv(s) && Possible(s, es) && s.phase.InProgress? && Count(s.calls, Works) == 0
    ensures var t := After(s, es);
      t.phase.InProgress? && Count(t.calls, Works) == 0 && t.starts == s.starts && t.returned == s.returned
    decreases |es|
  {
    if es != [] {
      StrandedStep(s, es[0].0, es[0].1);
      StepKeeps(s, es[0].0, es[0].1);
      StrandedForever(Apply(s, es[0].0, es[0].1), es[1..]);
    }
  }

  lemma StrandedStep(s: State, c: nat, e: Step)
    requires Enabled(s, c, e) && s.phase.InProgress? && Count(s.calls, Works) == 0
    ensures var t := Apply(s, c, e);
      t.phase.InProgress? && Count(t.calls, Works) == 0 && t.starts == s.starts && t.returned == s.returned
  {
    CountPositive(s.calls, Works);
    CallEnds(s.calls, c);
    CallMoves(s.calls, c, Asleep);
    CallMoves(s.calls, c, Woken);
  }

  /**
    A begin whose unlock fails on a fresh once, and a complete or poison whose lock fails, end their
    call and leave the once like that, in every run.
   */
  lemma ErrorStrands(es: seq<(nat, Step)>, c: nat, e: Step)
    requires Possible(INITIAL, es) && Enabled(After(INITIAL, es), c, e)
    requires var s := After(INITIAL, es); (e == PassUnlockFails && s.starts == 0 && !s.faulted) || e == SettleLockFails
    ensures var t := Apply(After(INITIAL, es), c, e);
      c !in t.calls && t.phase.InProgress? && Count(t.calls, Works) == 0 && t.faulted
  {
    var s := After(INITIAL, es);
    assert Threads.At(INITIAL.calls, Works) == {} && Threads.At(INITIAL.calls, Sleeps) == {};
    RunKeeps(INITIAL, es);
    CountPositive(s.calls, Works);
    CallEnds(s.calls, c);
  }
}
