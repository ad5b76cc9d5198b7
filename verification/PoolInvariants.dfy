/**
  What every step of the thread pool keeps: the counters, the closing discipline, who owns each
  task, and, as long as no signal, broadcast or wait fails, that no wake-up is lost.
 */
module PoolInvariants {
  import opened Threads
  import opened PoolCores
  import opened Pools

  // ---- counters and references ----

  function CtorRefs(c: Ctor): int {
    match c
    case Growing | RollClose | RollWait | RollAsleep | RollFree => 1
    case Inced | Counted | RollCount | RollRef => 2
    case Failed | Ready => 0
  }

  predicate CtorCounts(c: Ctor) { c.Counted? || c.RollCount? }

  predicate CtorOpen(c: Ctor) {
    c.Growing? || c.Inced? || c.Counted? || c.RollCount? || c.RollRef? || c.RollClose?
  }

  ghost predicate LiveCount(live: int, ws: map<nat, WorkerPc>, ctor: Ctor) {
    live == Count(ws, IsLive) + One(CtorCounts(ctor))
  }

  ghost predicate RefCount(refs: int, frees: nat, ws: map<nat, WorkerPc>, hs: map<nat, HandlePc>, ctor: Ctor) {
    && refs == Count(ws, IsUnreleased) + Count(hs, HoldsRef) + CtorRefs(ctor)
    && frees == One(refs == 0)
  }

  ghost predicate HandleCount(handles: int, hs: map<nat, HandlePc>, ctor: Ctor) {
    handles == Count(hs, IsOpen) + One(!ctor.Ready?)
  }

  // ---- how far the constructor has come, and what a close means ----

  predicate Sizes(target: nat, workers: nat, ctor: Ctor, core: Core) {
    && 0 < target && workers <= target
    && (ctor.Inced? || ctor.Counted? ==> workers < target)
    && (ctor.Ready? ==> workers == target)
    && 0 < core.capacity && |core.queue| <= core.capacity
  }

  /** Only blocking calls last. A call has an open handle, and no worker blocks in a call on its own pool. */
  ghost predicate CallsOpen(cs: map<nat, Call>, hs: map<nat, HandlePc>) {
    forall c :: c in cs ==> cs[c].handle in hs && hs[cs[c].handle].Open? && cs[c].from == External && cs[c].block
  }

  predicate Closing(core: Core, ctor: Ctor) {
    && (ctor.Ready? && core.handles == 0 ==> !core.accepting)
    && (CtorOpen(ctor) ==> core.accepting)
    && (!CtorOpen(ctor) && !ctor.Ready? ==> !core.accepting)
    && (!ctor.Ready? ==> core.queue == [])
    && (ctor.RollFree? || ctor.Failed? ==> core.live == 0)
  }

  /** A pool is open as long as nobody has closed it and a handle is left. */
  predicate Opened(accepting: bool, handles: int, ctor: Ctor, shut: bool) {
    && (ctor.Ready? ==> (accepting <==> !shut && handles > 0))
    && (CtorOpen(ctor) ==> !shut)
  }

  /** A worker leaves only a closed and empty pool. */
  ghost predicate LeftEmpty(core: Core, ws: map<nat, WorkerPc>) {
    forall w :: w in ws && !IsLive(ws[w]) ==> !core.accepting && core.queue == []
  }

  // ---- wake-ups ----

  /** If a worker sleeps, the workers about to fetch are at least as many as the queued tasks. */
  ghost predicate WorkersConserved(ws: map<nat, WorkerPc>, core: Core) {
    Count(ws, IsAsleep) > 0 ==> core.accepting && Count(ws, IsFetching) >= |core.queue|
  }

  /** If a submitter sleeps, the woken submitters are at least as many as the free slots. */
  ghost predicate SubmittersConserved(cs: map<nat, Call>, core: Core) {
    Count(cs, SubmitSleeps) > 0 ==> core.accepting && Count(cs, SubmitIsWoken) >= core.capacity - |core.queue|
  }

  /** Nobody waits for the workers to stop when none is left. */
  ghost predicate StopsNoticed(cs: map<nat, Call>, ctor: Ctor, live: int) {
    Count(cs, ShutSleeps) > 0 || ctor.RollAsleep? ==> live > 0
  }

  // ---- task ownership ----

  /** The queue holds exactly the tasks owned by it, each once. */
  ghost predicate QueueOwns(q: seq<Task>, owner: map<Task, Owner>) {
    && (forall i, j :: 0 <= i < j < |q| ==> q[i] != q[j])
    && (forall k :: k in q ==> k in owner && owner[k] == InQueue)
    && (forall k :: k in owner && owner[k] == InQueue ==> k in q)
  }

  ghost predicate WorkersOwn(ws: map<nat, WorkerPc>, owner: map<Task, Owner>) {
    && (forall w :: w in ws && (ws[w].Taken? || ws[w].Running?) ==>
          ws[w].task in owner && owner[ws[w].task] == WithWorker(w, ws[w].Running?))
    && (forall k :: k in owner && owner[k].WithWorker? ==>
          owner[k].w in ws && ws[owner[k].w] == if owner[k].started then Running(k) else Taken(k))
  }

  ghost predicate CallsOwn(cs: map<nat, Call>, owner: map<Task, Owner>) {
    && (forall c :: c in cs && SubmitPends(cs[c]) ==>
          cs[c].pc.task in owner && owner[cs[c].pc.task] == InCall(c))
    && (forall k :: k in owner && owner[k].InCall? ==>
          owner[k].c in cs && SubmitPends(cs[owner[k].c]) && cs[owner[k].c].pc.task == k)
  }

  predicate WasAccepted(o: Owner) { o.InQueue? || o.WithWorker? || o.Done? }
  predicate WasCalled(o: Owner) { o.Done? || (o.WithWorker? && o.started) }
  predicate WasReleased(o: Owner) { o.Done? || o.Refused? }

  /** `m` holds exactly the tasks whose owner satisfies `p`, each once. */
  ghost predicate Tally(m: multiset<Task>, owner: map<Task, Owner>, p: Owner -> bool) {
    forall k :: m[k] == One(k in owner && p(owner[k]))
  }

  /** What the submit of a task has returned, if it has. */
  function ReturnedCode(o: Owner): Option<nat> {
    match o
    case InCall(_) => None
    case Refused(code) => if code != 0 then Some(code) else None
    case _ => Some(0)
  }

  /** Every submit returns once: 0 for an accepted task, another code for a refused one. */
  ghost predicate Logged(owner: map<Task, Owner>, log: multiset<Outcome>) {
    forall o: Outcome :: log[o] == One(o.task in owner && ReturnedCode(owner[o.task]) == Some(o.code))
  }

  /** Acceptances, calls and releases agree with ownership: nothing happens twice to a task. */
  ghost predicate Balanced(b: Book) {
    && Tally(b.called, b.owner, WasCalled) && Tally(b.released, b.owner, WasReleased)
    && Tally(multiset(b.accepted), b.owner, WasAccepted) && Logged(b.owner, b.log)
  }

  ghost predicate Tasks(q: seq<Task>, ws: map<nat, WorkerPc>, cs: map<nat, Call>, b: Book) {
    && QueueOwns(q, b.owner) && WorkersOwn(ws, b.owner) && CallsOwn(cs, b.owner)
    && Balanced(b) && b.accepted == b.taken + q
  }

  ghost predicate Sound(s: State) {
    && LiveCount(s.core.live, s.workers, s.ctor) && RefCount(s.refs, s.frees, s.workers, s.handles, s.ctor)
    && HandleCount(s.core.handles, s.handles, s.ctor)
    && Sizes(s.target, |s.workers|, s.ctor, s.core)
    && (!s.ctor.Ready? ==> s.handles == map[] && s.calls == map[])
    && CallsOpen(s.calls, s.handles) && Closing(s.core, s.ctor) && LeftEmpty(s.core, s.workers)
    && StopsNoticed(s.calls, s.ctor, s.core.live)
  }

  ghost predicate Conserved(s: State) {
    WorkersConserved(s.workers, s.core) && SubmittersConserved(s.calls, s.core)
  }

  ghost predicate Inv(s: State) {
    && Sound(s)
    && Tasks(s.core.queue, s.workers, s.calls, s.book)
    && Opened(s.core.accepting, s.core.handles, s.ctor, s.shut)
    && (!s.faulted ==> Conserved(s))
  }

  // ---- how the counts move ----

  lemma WorkerMoves(ws: map<nat, WorkerPc>, w: nat, p: WorkerPc)
    ensures Count(ws[w := p], IsLive) == Count(ws, IsLive) - Here(ws, w, IsLive) + One(IsLive(p))
    ensures Count(ws[w := p], IsUnreleased)
            == Count(ws, IsUnreleased) - Here(ws, w, IsUnreleased) + One(IsUnreleased(p))
    ensures Count(ws[w := p], IsAsleep) == Count(ws, IsAsleep) - Here(ws, w, IsAsleep) + One(IsAsleep(p))
    ensures Count(ws[w := p], IsFetching) == Count(ws, IsFetching) - Here(ws, w, IsFetching) + One(IsFetching(p))
    ensures |ws[w := p]| == |ws| + if w in ws then 0 else 1
  {
    CountPut(ws, w, p, IsLive);
    CountPut(ws, w, p, IsUnreleased);
    CountPut(ws, w, p, IsAsleep);
    CountPut(ws, w, p, IsFetching);
    assert ws[w := p].Keys == ws.Keys + {w};
    assert |ws[w := p]| == |ws[w := p].Keys| && |ws| == |ws.Keys|;
  }

  lemma CallMoves(cs: map<nat, Call>, c: nat, v: Call)
    ensures Count(cs[c := v], SubmitSleeps)
            == Count(cs, SubmitSleeps) - Here(cs, c, SubmitSleeps) + One(SubmitSleeps(v))
    ensures Count(cs[c := v], SubmitIsWoken)
            == Count(cs, SubmitIsWoken) - Here(cs, c, SubmitIsWoken) + One(SubmitIsWoken(v))
    ensures Count(cs[c := v], ShutSleeps) == Count(cs, ShutSleeps) - Here(cs, c, ShutSleeps) + One(ShutSleeps(v))
  {
    CountPut(cs, c, v, SubmitSleeps);
    CountPut(cs, c, v, SubmitIsWoken);
    CountPut(cs, c, v, ShutSleeps);
  }

  lemma CallEnds(cs: map<nat, Call>, c: nat)
    ensures Count(cs - {c}, SubmitSleeps) == Count(cs, SubmitSleeps) - Here(cs, c, SubmitSleeps)
    ensures Count(cs - {c}, SubmitIsWoken) == Count(cs, SubmitIsWoken) - Here(cs, c, SubmitIsWoken)
    ensures Count(cs - {c}, ShutSleeps) == Count(cs, ShutSleeps) - Here(cs, c, ShutSleeps)
  {
    CountDrop(cs, c, SubmitSleeps);
    CountDrop(cs, c, SubmitIsWoken);
    CountDrop(cs, c, ShutSleeps);
  }

  lemma HandleMoves(hs: map<nat, HandlePc>, h: nat, v: HandlePc)
    ensures Count(hs[h := v], IsOpen) == Count(hs, IsOpen) - Here(hs, h, IsOpen) + One(IsOpen(v))
    ensures Count(hs[h := v], HoldsRef) == Count(hs, HoldsRef) - Here(hs, h, HoldsRef) + One(HoldsRef(v))
  {
    CountPut(hs, h, v, IsOpen);
    CountPut(hs, h, v, HoldsRef);
  }

  predicate Never<P>(p: P) { false }

  lemma CountNever<P(!new)>(m: map<nat, P>)
    ensures Count(m, Never) == 0
  {
    assert At(m, Never) == {};
  }

  predicate AsleepOrFetching(p: WorkerPc) { p.Asleep? || p.Fetching? }

  lemma WorkersWake(ws: map<nat, WorkerPc>)
    ensures var r := Each(ws, WakeWorker);
      && Count(r, IsAsleep) == 0 && Count(r, IsFetching) == Count(ws, IsAsleep) + Count(ws, IsFetching)
      && Count(r, IsLive) == Count(ws, IsLive) && Count(r, IsUnreleased) == Count(ws, IsUnreleased)
      && |r| == |ws|
  {
    CountEach(ws, WakeWorker, Never, IsAsleep);
    CountNever(ws);
    CountEach(ws, WakeWorker, AsleepOrFetching, IsFetching);
    CountOr(ws, IsAsleep, IsFetching, AsleepOrFetching);
    CountEach(ws, WakeWorker, IsLive, IsLive);
    CountEach(ws, WakeWorker, IsUnreleased, IsUnreleased);
    assert |Each(ws, WakeWorker).Keys| == |ws.Keys|;
  }

  lemma SubmittersWake(cs: map<nat, Call>)
    ensures var r := Each(cs, WakeSubmit);
      && Count(r, SubmitSleeps) == 0 && Count(r, SubmitIsWoken) == Count(cs, SubmitSleeps) + Count(cs, SubmitIsWoken)
      && Count(r, ShutSleeps) == Count(cs, ShutSleeps)
  {
    CountEach(cs, WakeSubmit, Never, SubmitSleeps);
    CountNever(cs);
    CountEach(cs, WakeSubmit, SubmitPends, SubmitIsWoken);
    CountOr(cs, SubmitSleeps, SubmitIsWoken, SubmitPends);
    CountEach(cs, WakeSubmit, ShutSleeps, ShutSleeps);
  }

  lemma ShutdownsWake(cs: map<nat, Call>)
    ensures var r := Each(cs, WakeShut);
      && Count(r, ShutSleeps) == 0
      && Count(r, SubmitSleeps) == Count(cs, SubmitSleeps) && Count(r, SubmitIsWoken) == Count(cs, SubmitIsWoken)
  {
    CountEach(cs, WakeShut, Never, ShutSleeps);
    CountNever(cs);
    CountEach(cs, WakeShut, SubmitSleeps, SubmitSleeps);
    CountEach(cs, WakeShut, SubmitIsWoken, SubmitIsWoken);
  }

  /** The last reference goes only after the workers are gone, and they leave nothing behind. */
  lemma EmptyWhenUnreferenced(s: State)
    requires Sound(s)
    ensures s.refs == 0 ==> s.core.queue == []
  {
    if s.refs == 0 && s.ctor.Ready? {
      assert s.workers.Keys != {};
      var w :| w in s.workers;
      if s.workers[w] != Exited {
        CountPositive(s.workers, IsUnreleased);
      }
    }
  }
}
