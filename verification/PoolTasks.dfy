/** Each thing that can happen to a task keeps the ownership records of the pool. */
module PoolTasks {
  import opened Threads
  import opened PoolCores
  import opened Pools
  import opened PoolInvariants

  // A record changes hands among owners that none of the three places below knows about.

  lemma QueueFrame(q: seq<Task>, owner: map<Task, Owner>, k: Task, o: Owner)
    requires QueueOwns(q, owner) && o != InQueue && (k in owner ==> owner[k] != InQueue)
    ensures QueueOwns(q, owner[k := o])
  {
  }

  lemma WorkersFrame(ws: map<nat, WorkerPc>, owner: map<Task, Owner>, k: Task, o: Owner)
    requires WorkersOwn(ws, owner) && !o.WithWorker? && (k in owner ==> !owner[k].WithWorker?)
    ensures WorkersOwn(ws, owner[k := o])
  {
  }

  lemma CallsFrame(cs: map<nat, Call>, owner: map<Task, Owner>, k: Task, o: Owner)
    requires CallsOwn(cs, owner) && !o.InCall? && (k in owner ==> !owner[k].InCall?)
    ensures CallsOwn(cs, owner[k := o])
  {
  }

  lemma QueuePops(q: seq<Task>, owner: map<Task, Owner>, o: Owner)
    requires QueueOwns(q, owner) && q != [] && o != InQueue
    ensures q[0] in owner && owner[q[0]] == InQueue && QueueOwns(q[1..], owner[q[0] := o])
  {
    assert q == [q[0]] + q[1..];
  }

  lemma QueuePushes(q: seq<Task>, owner: map<Task, Owner>, k: Task)
    requires QueueOwns(q, owner) && (k in owner ==> owner[k] != InQueue)
    ensures QueueOwns(q + [k], owner[k := InQueue])
  {
  }

  /** The worker `w`, which holds nothing else, comes to hold `k`. */
  lemma WorkerHolds(ws: map<nat, WorkerPc>, owner: map<Task, Owner>, w: nat, k: Task, started: bool)
    requires WorkersOwn(ws, owner) && w in ws
    requires ws[w].Fetching? || ws[w] == Taken(k)
    requires k in owner && (owner[k] == InQueue || owner[k] == WithWorker(w, false))
    ensures WorkersOwn(ws[w := if started then Running(k) else Taken(k)], owner[k := WithWorker(w, started)])
  {
  }

  lemma WorkerLetsGo(ws: map<nat, WorkerPc>, owner: map<Task, Owner>, w: nat)
    requires WorkersOwn(ws, owner) && w in ws && ws[w].Running?
    ensures WorkersOwn(ws[w := Fetching], owner[ws[w].task := Done])
  {
  }

  lemma CallLetsGo(cs: map<nat, Call>, owner: map<Task, Owner>, c: nat, o: Owner)
    requires CallsOwn(cs, owner) && c in cs && SubmitPends(cs[c]) && !o.InCall?
    ensures CallsOwn(cs - {c}, owner[cs[c].pc.task := o])
  {
  }

  lemma CallHolds(cs: map<nat, Call>, owner: map<Task, Owner>, c: nat, v: Call)
    requires CallsOwn(cs, owner) && c !in cs && SubmitPends(v) && v.pc.task !in owner
    ensures CallsOwn(cs[c := v], owner[v.pc.task := InCall(c)])
  {
  }

  // The tallies of acceptances, calls and releases follow each move.

  lemma TallySame(m: multiset<Task>, owner: map<Task, Owner>, p: Owner -> bool, k: Task, o: Owner)
    requires Tally(m, owner, p) && p(o) == (k in owner && p(owner[k]))
    ensures Tally(m, owner[k := o], p)
  {
  }

  lemma TallyAdds(m: multiset<Task>, owner: map<Task, Owner>, p: Owner -> bool, k: Task, o: Owner)
    requires Tally(m, owner, p) && p(o) && !(k in owner && p(owner[k]))
    ensures Tally(m + multiset{k}, owner[k := o], p)
  {
  }

  lemma LoggedSame(owner: map<Task, Owner>, log: multiset<Outcome>, k: Task, o: Owner)
    requires Logged(owner, log) && ReturnedCode(o) == if k in owner then ReturnedCode(owner[k]) else None
    ensures Logged(owner[k := o], log)
  {
  }

  lemma LoggedAdds(owner: map<Task, Owner>, log: multiset<Outcome>, k: Task, o: Owner, code: nat)
    requires Logged(owner, log) && (k in owner ==> owner[k].InCall?) && ReturnedCode(o) == Some(code)
    ensures Logged(owner[k := o], log + multiset{Outcome(k, code)})
  {
  }

  lemma BalancedMove(b: Book, k: Task, o: Owner)
    requires Balanced(b) && k in b.owner && WasAccepted(b.owner[k]) && WasAccepted(o)
    requires WasCalled(b.owner[k]) == WasCalled(o) && !WasReleased(b.owner[k]) && !WasReleased(o)
    ensures Balanced(b.(owner := b.owner[k := o]))
  {
    TallySame(b.called, b.owner, WasCalled, k, o);
    TallySame(b.released, b.owner, WasReleased, k, o);
    TallySame(multiset(b.accepted), b.owner, WasAccepted, k, o);
    LoggedSame(b.owner, b.log, k, o);
  }

  lemma BalancedStart(b: Book, k: Task, w: nat)
    requires Balanced(b) && k in b.owner && b.owner[k] == WithWorker(w, false)
    ensures Balanced(b.Starts(k, w))
  {
    var o := WithWorker(w, true);
    TallyAdds(b.called, b.owner, WasCalled, k, o);
    TallySame(b.released, b.owner, WasReleased, k, o);
    TallySame(multiset(b.accepted), b.owner, WasAccepted, k, o);
    LoggedSame(b.owner, b.log, k, o);
  }

  lemma BalancedReturn(b: Book, k: Task, w: nat)
    requires Balanced(b) && k in b.owner && b.owner[k] == WithWorker(w, true)
    ensures Balanced(b.Returns(k))
  {
    TallySame(b.called, b.owner, WasCalled, k, Done);
    TallyAdds(b.released, b.owner, WasReleased, k, Done);
    TallySame(multiset(b.accepted), b.owner, WasAccepted, k, Done);
    LoggedSame(b.owner, b.log, k, Done);
  }

  lemma BalancedEnter(b: Book, k: Task)
    requires Balanced(b) && (k in b.owner ==> b.owner[k].InCall?)
    ensures Balanced(b.Enters(k).Logs(k, 0))
  {
    TallySame(b.called, b.owner, WasCalled, k, InQueue);
    TallySame(b.released, b.owner, WasReleased, k, InQueue);
    TallyAdds(multiset(b.accepted), b.owner, WasAccepted, k, InQueue);
    assert multiset(b.accepted + [k]) == multiset(b.accepted) + multiset{k};
    LoggedAdds(b.owner, b.log, k, InQueue, 0);
  }

  lemma BalancedRefuse(b: Book, k: Task, code: nat)
    requires Balanced(b) && (k in b.owner ==> b.owner[k].InCall?) && code != 0
    ensures Balanced(b.Refuses(k, code).Logs(k, code))
  {
    TallySame(b.called, b.owner, WasCalled, k, Refused(code));
    TallyAdds(b.released, b.owner, WasReleased, k, Refused(code));
    TallySame(multiset(b.accepted), b.owner, WasAccepted, k, Refused(code));
    LoggedAdds(b.owner, b.log, k, Refused(code), code);
  }

  lemma BalancedWait(b: Book, k: Task, c: nat)
    requires Balanced(b) && k !in b.owner
    ensures Balanced(b.Waits(k, c))
  {
    TallySame(b.called, b.owner, WasCalled, k, InCall(c));
    TallySame(b.released, b.owner, WasReleased, k, InCall(c));
    TallySame(multiset(b.accepted), b.owner, WasAccepted, k, InCall(c));
    LoggedSame(b.owner, b.log, k, InCall(c));
  }

  /** A worker moves between points where it holds no task. */
  lemma WorkersOwnMove(ws: map<nat, WorkerPc>, owner: map<Task, Owner>, w: nat, p: WorkerPc)
    requires WorkersOwn(ws, owner) && !p.Taken? && !p.Running? && (w in ws ==> !ws[w].Taken? && !ws[w].Running?)
    ensures WorkersOwn(ws[w := p], owner)
  {
  }

  lemma Regroup(taken: seq<Task>, q: seq<Task>)
    requires q != []
    ensures taken + q == taken + [q[0]] + q[1..]
  {
  }

  lemma Appended(b: Book, q: seq<Task>, k: Task)
    requires b.accepted == b.taken + q
    ensures b.accepted + [k] == b.taken + (q + [k])
  {
  }

  lemma PendingOwner(cs: map<nat, Call>, owner: map<Task, Owner>, c: nat)
    requires CallsOwn(cs, owner) && c in cs && SubmitPends(cs[c])
    ensures cs[c].pc.task in owner && owner[cs[c].pc.task] == InCall(c)
  {
  }

  lemma TakeKeeps(q: seq<Task>, ws: map<nat, WorkerPc>, cs: map<nat, Call>, b: Book, w: nat)
    requires Tasks(q, ws, cs, b) && q != [] && w in ws && ws[w].Fetching?
    ensures Tasks(q[1..], ws[w := Taken(q[0])], cs, b.Leaves(q[0], w))
  {
    var k := q[0];
    QueuePops(q, b.owner, WithWorker(w, false));
    WorkerHolds(ws, b.owner, w, k, false);
    CallsFrame(cs, b.owner, k, WithWorker(w, false));
    BalancedMove(b, k, WithWorker(w, false));
    Regroup(b.taken, q);
  }

  lemma StartKeeps(q: seq<Task>, ws: map<nat, WorkerPc>, cs: map<nat, Call>, b: Book, w: nat)
    requires Tasks(q, ws, cs, b) && w in ws && ws[w].Taken?
    ensures Tasks(q, ws[w := Running(ws[w].task)], cs, b.Starts(ws[w].task, w))
  {
    var k := ws[w].task;
    QueueFrame(q, b.owner, k, WithWorker(w, true));
    WorkerHolds(ws, b.owner, w, k, true);
    CallsFrame(cs, b.owner, k, WithWorker(w, true));
    BalancedStart(b, k, w);
  }

  lemma ReturnKeeps(q: seq<Task>, ws: map<nat, WorkerPc>, cs: map<nat, Call>, b: Book, w: nat)
    requires Tasks(q, ws, cs, b) && w in ws && ws[w].Running?
    ensures Tasks(q, ws[w := Fetching], cs, b.Returns(ws[w].task))
  {
    QueueFrame(q, b.owner, ws[w].task, Done);
    WorkerLetsGo(ws, b.owner, w);
    CallsFrame(cs, b.owner, ws[w].task, Done);
    BalancedReturn(b, ws[w].task, w);
  }

  lemma IdleMoveKeeps(q: seq<Task>, ws: map<nat, WorkerPc>, cs: map<nat, Call>, b: Book, w: nat, p: WorkerPc)
    requires Tasks(q, ws, cs, b) && !p.Taken? && !p.Running?
    requires w in ws ==> !ws[w].Taken? && !ws[w].Running?
    ensures Tasks(q, ws[w := p], cs, b)
  {
    WorkersOwnMove(ws, b.owner, w, p);
  }

  /** A new submit is queued. */
  lemma EnterKeeps(q: seq<Task>, ws: map<nat, WorkerPc>, cs: map<nat, Call>, b: Book, k: Task)
    requires Tasks(q, ws, cs, b) && k !in b.owner
    ensures Tasks(q + [k], ws, cs, b.Enters(k).Logs(k, 0))
  {
    QueuePushes(q, b.owner, k);
    WorkersFrame(ws, b.owner, k, InQueue);
    CallsFrame(cs, b.owner, k, InQueue);
    BalancedEnter(b, k);
    Appended(b, q, k);
  }

  /** A submit that had waited is queued. */
  lemma WaiterEntersKeeps(q: seq<Task>, ws: map<nat, WorkerPc>, cs: map<nat, Call>, b: Book, c: nat)
    requires Tasks(q, ws, cs, b) && c in cs && cs[c].pc.SubmitWoken?
    ensures Tasks(q + [cs[c].pc.task], ws, cs - {c}, b.Enters(cs[c].pc.task).Logs(cs[c].pc.task, 0))
  {
    PendingOwner(cs, b.owner, c);
    QueuePushes(q, b.owner, cs[c].pc.task);
    WorkersFrame(ws, b.owner, cs[c].pc.task, InQueue);
    CallLetsGo(cs, b.owner, c, InQueue);
    BalancedEnter(b, cs[c].pc.task);
    Appended(b, q, cs[c].pc.task);
  }

  lemma RefuseKeeps(q: seq<Task>, ws: map<nat, WorkerPc>, cs: map<nat, Call>, b: Book, k: Task, code: nat)
    requires Tasks(q, ws, cs, b) && k !in b.owner && code != 0
    ensures Tasks(q, ws, cs, b.Refuses(k, code).Logs(k, code))
  {
    QueueFrame(q, b.owner, k, Refused(code));
    WorkersFrame(ws, b.owner, k, Refused(code));
    CallsFrame(cs, b.owner, k, Refused(code));
    BalancedRefuse(b, k, code);
  }

  lemma WaiterRefusedKeeps(q: seq<Task>, ws: map<nat, WorkerPc>, cs: map<nat, Call>, b: Book, c: nat, code: nat)
    requires Tasks(q, ws, cs, b) && c in cs && cs[c].pc.SubmitWoken? && code != 0
    ensures Tasks(q, ws, cs - {c}, b.Refuses(cs[c].pc.task, code).Logs(cs[c].pc.task, code))
  {
    PendingOwner(cs, b.owner, c);
    QueueFrame(q, b.owner, cs[c].pc.task, Refused(code));
    WorkersFrame(ws, b.owner, cs[c].pc.task, Refused(code));
    CallLetsGo(cs, b.owner, c, Refused(code));
    BalancedRefuse(b, cs[c].pc.task, code);
  }

  lemma WaitKeeps(q: seq<Task>, ws: map<nat, WorkerPc>, cs: map<nat, Call>, b: Book, c: nat, v: Call)
    requires Tasks(q, ws, cs, b) && c !in cs && v.pc.SubmitAsleep? && v.pc.task !in b.owner
    ensures Tasks(q, ws, cs[c := v], b.Waits(v.pc.task, c))
  {
    QueueFrame(q, b.owner, v.pc.task, InCall(c));
    WorkersFrame(ws, b.owner, v.pc.task, InCall(c));
    CallHolds(cs, b.owner, c, v);
    BalancedWait(b, v.pc.task, c);
  }

  /** Two calls pend on the same task, or on none. */
  predicate SamePending(x: Call, y: Call) {
    SubmitPends(x) == SubmitPends(y) && (SubmitPends(x) ==> x.pc.task == y.pc.task)
  }

  // Calls come, go, sleep and wake without touching a task.

  lemma OwnSets(cs: map<nat, Call>, owner: map<Task, Owner>, c: nat, v: Call)
    requires CallsOwn(cs, owner) && (if c in cs then SamePending(v, cs[c]) else !SubmitPends(v))
    ensures CallsOwn(cs[c := v], owner)
  {
  }

  lemma OwnEnds(cs: map<nat, Call>, owner: map<Task, Owner>, c: nat)
    requires CallsOwn(cs, owner) && (c in cs ==> !SubmitPends(cs[c]))
    ensures CallsOwn(cs - {c}, owner)
  {
  }

  lemma OwnEach(cs: map<nat, Call>, owner: map<Task, Owner>, wake: Call -> Call)
    requires CallsOwn(cs, owner) && forall v :: SamePending(wake(v), v)
    ensures CallsOwn(Each(cs, wake), owner)
  {
  }

  lemma OwnSignal(cs: map<nat, Call>, owner: map<Task, Owner>, wake: Option<nat>)
    requires CallsOwn(cs, owner)
    ensures CallsOwn(SignalSubmit(cs, wake), owner)
  {
    if wake.Some? && wake.value in cs {
      OwnSets(cs, owner, wake.value, WakeSubmit(cs[wake.value]));
    }
  }

  lemma WorkersOwnWake(ws: map<nat, WorkerPc>, owner: map<Task, Owner>)
    requires WorkersOwn(ws, owner)
    ensures WorkersOwn(Each(ws, WakeWorker), owner)
  {
  }

  lemma WorkersWakeKeeps(q: seq<Task>, ws: map<nat, WorkerPc>, cs: map<nat, Call>, b: Book)
    requires Tasks(q, ws, cs, b)
    ensures Tasks(q, Each(ws, WakeWorker), cs, b)
  {
    WorkersOwnWake(ws, b.owner);
  }
}
