/** Each thing that can happen to a native copy, or to a send's record, keeps the channel's books. */
module BytesBooks {
  import opened Threads
  import opened BytesCores
  import opened BytesChannels
  import opened BytesInvariants

  // ---- copies ----

  lemma SlotsFrame(q: seq<Message>, owner: map<nat, Owner>, id: nat, o: Owner)
    requires SlotsOwn(q, owner) && o != InSlot && (id in owner ==> owner[id] != InSlot)
    ensures SlotsOwn(q, owner[id := o])
  {
  }

  lemma SlotsPush(q: seq<Message>, owner: map<nat, Owner>, m: Message)
    requires SlotsOwn(q, owner) && m.copy in owner && owner[m.copy] != InSlot
    ensures SlotsOwn(q + [m], owner[m.copy := InSlot])
  {
    var q' := q + [m];
    forall id | id in owner[m.copy := InSlot] && owner[m.copy := InSlot][id] == InSlot ensures Has(q', id) {
      if id == m.copy {
        assert q'[|q|].copy == id;
      } else {
        var i :| 0 <= i < |q| && q[i].copy == id;
        assert q'[i].copy == id;
      }
    }
  }

  lemma SlotsPop(q: seq<Message>, owner: map<nat, Owner>, o: Owner)
    requires SlotsOwn(q, owner) && q != [] && o != InSlot
    ensures SlotsOwn(q[1..], owner[q[0].copy := o])
  {
    var owner' := owner[q[0].copy := o];
    forall id | id in owner' && owner'[id] == InSlot ensures Has(q[1..], id) {
      var i :| 0 <= i < |q| && q[i].copy == id;
      assert q[1..][i - 1].copy == id;
    }
  }

  lemma CallsLetGo(cs: map<nat, Call>, owner: map<nat, Owner>, t: nat, o: Owner)
    requires CallsOwn(cs, owner) && t in cs && Held(cs[t]).Some? && !o.WithCall?
    ensures CallsOwn(cs - {t}, owner[Held(cs[t]).value := o])
  {
  }

  lemma CallsTake(cs: map<nat, Call>, owner: map<nat, Owner>, t: nat, v: Call, id: nat)
    requires CallsOwn(cs, owner) && Held(v) == Some(id)
    requires t in cs ==> Held(cs[t]).None?
    requires id in owner ==> !owner[id].WithCall?
    ensures CallsOwn(cs[t := v], owner[id := WithCall(t)])
  {
  }

  lemma FreesOnce(b: Book, id: nat)
    requires FreedOnce(b) && id in b.owner && b.owner[id] != Freed
    ensures FreedOnce(b.Frees(id))
  {
  }

  // Calls come, go, sleep and wake without a copy changing hands.

  lemma OwnSets(cs: map<nat, Call>, owner: map<nat, Owner>, t: nat, v: Call)
    requires CallsOwn(cs, owner) && Held(v) == if t in cs then Held(cs[t]) else None
    ensures CallsOwn(cs[t := v], owner)
  {
  }

  lemma OwnEnds(cs: map<nat, Call>, owner: map<nat, Owner>, t: nat)
    requires CallsOwn(cs, owner) && (t in cs ==> Held(cs[t]).None?)
    ensures CallsOwn(cs - {t}, owner)
  {
  }

  lemma OwnEach(cs: map<nat, Call>, owner: map<nat, Owner>, wake: Call -> Call)
    requires CallsOwn(cs, owner) && forall v :: Held(wake(v)) == Held(v)
    ensures CallsOwn(Each(cs, wake), owner)
  {
  }

  lemma OwnWoken(cs: map<nat, Call>, owner: map<nat, Owner>, readers: bool, writers: bool)
    requires CallsOwn(cs, owner)
    ensures CallsOwn(Woken(cs, readers, writers), owner)
  {
    if readers {
      OwnEach(cs, owner, WakeRecv);
    }
    if writers {
      OwnEach(if readers then Each(cs, WakeRecv) else cs, owner, WakeSend);
    }
  }

  lemma OwnSignalRecv(cs: map<nat, Call>, owner: map<nat, Owner>, wake: Option<nat>)
    requires CallsOwn(cs, owner)
    ensures CallsOwn(SignalRecv(cs, wake), owner)
  {
    if wake.Some? && wake.value in cs {
      OwnSets(cs, owner, wake.value, WakeRecv(cs[wake.value]));
    }
  }

  lemma OwnSignalSend(cs: map<nat, Call>, owner: map<nat, Owner>, wake: Option<nat>)
    requires CallsOwn(cs, owner)
    ensures CallsOwn(SignalSend(cs, wake), owner)
  {
    if wake.Some? && wake.value in cs {
      OwnSets(cs, owner, wake.value, WakeSend(cs[wake.value]));
    }
  }

  lemma CopiesMade(q: seq<Message>, cs: map<nat, Call>, b: Book, t: nat, v: Call, id: nat)
    requires Copies(q, cs, b) && t in cs && Held(cs[t]).None? && id !in b.owner && Held(v) == Some(id)
    ensures Copies(q, cs[t := v], b.Copies(id, t))
  {
    SlotsFrame(q, b.owner, id, WithCall(t));
    CallsTake(cs, b.owner, t, v, id);
  }

  lemma CopiesEnter(q: seq<Message>, cs: map<nat, Call>, b: Book, t: nat, m: Message)
    requires Copies(q, cs, b) && t in cs && Held(cs[t]) == Some(m.copy)
    ensures Copies(q + [m], cs - {t}, b.Enters(m))
  {
    SlotsPush(q, b.owner, m);
    CallsLetGo(cs, b.owner, t, InSlot);
  }

  lemma CopiesFreed(q: seq<Message>, cs: map<nat, Call>, b: Book, t: nat)
    requires Copies(q, cs, b) && t in cs && Held(cs[t]).Some?
    ensures Copies(q, cs - {t}, b.Frees(Held(cs[t]).value))
  {
    var id := Held(cs[t]).value;
    SlotsFrame(q, b.owner, id, Freed);
    CallsLetGo(cs, b.owner, t, Freed);
    FreesOnce(b, id);
  }

  lemma CopiesLeave(q: seq<Message>, cs: map<nat, Call>, b: Book, t: nat, v: Call)
    requires Copies(q, cs, b) && q != [] && Held(v) == Some(q[0].copy) && b.dropped == []
    requires t in cs ==> Held(cs[t]).None?
    ensures Copies(q[1..], cs[t := v], b.Leaves(q[0], t))
  {
    SlotsPop(q, b.owner, WithCall(t));
    CallsTake(cs, b.owner, t, v, q[0].copy);
    assert b.received + [] + q == b.received + [q[0]] + [] + q[1..];
  }

  lemma HasSplits(q: seq<Message>, id: nat)
    requires q != []
    ensures Has(q, id) <==> q[0].copy == id || Has(q[1..], id)
  {
    if i :| 0 <= i < |q| && q[i].copy == id {
      assert i > 0 ==> q[1..][i - 1].copy == id;
    }
    if j :| 0 <= j < |q[1..]| && q[1..][j].copy == id {
      assert q[j + 1].copy == id;
    }
  }

  /** In a queue of distinct copies each one occurs once. */
  lemma {:induction false} CopiesDistinct(q: seq<Message>, id: nat)
    requires forall i, j :: 0 <= i < j < |q| ==> q[i].copy != q[j].copy
    ensures multiset(CopiesOf(q))[id] == One(Has(q, id))
  {
    if q != [] {
      CopiesDistinct(q[1..], id);
      HasSplits(q, id);
      assert q[0].copy == id ==> !Has(q[1..], id);
    }
  }

  lemma SweptOnce(q: seq<Message>, owner: map<nat, Owner>, freed: multiset<nat>, id: nat)
    requires SlotsOwn(q, owner) && freed[id] == One(id in owner && owner[id] == Freed)
    ensures (freed + multiset(CopiesOf(q)))[id] == One(id in Swept(owner) && Swept(owner)[id] == Freed)
  {
    CopiesDistinct(q, id);
    if i :| 0 <= i < |q| && q[i].copy == id {
      assert owner[q[i].copy] == InSlot;
    }
  }

  lemma SweptCalls(cs: map<nat, Call>, owner: map<nat, Owner>)
    requires CallsOwn(cs, owner)
    ensures CallsOwn(cs, Swept(owner))
  {
  }

  lemma SweptSlots(owner: map<nat, Owner>)
    ensures SlotsOwn([], Swept(owner))
  {
  }

  lemma SweptFreed(q: seq<Message>, b: Book)
    requires SlotsOwn(q, b.owner) && FreedOnce(b)
    ensures FreedOnce(SweptBook(q, b))
  {
    forall id ensures SweptBook(q, b).freed[id] == One(id in Swept(b.owner) && Swept(b.owner)[id] == Freed) {
      SweptOnce(q, b.owner, b.freed, id);
    }
  }

  lemma Regroup(r: seq<Message>, d: seq<Message>, q: seq<Message>)
    ensures r + d + q == r + (d + q) + []
  {
  }

  /** The last reference frees exactly the copies still in slots. */
  lemma CopiesSwept(q: seq<Message>, cs: map<nat, Call>, b: Book)
    requires Copies(q, cs, b)
    ensures Copies([], cs, SweptBook(q, b))
  {
    SweptSlots(b.owner);
    SweptFreed(q, b);
    SweptCalls(cs, b.owner);
    Regroup(b.received, b.dropped, q);
  }

  // ---- records ----

  lemma CallsOkSets(cs: map<nat, Call>, log: map<nat, seq<Outcome>>, maxMessage: nat, t: nat, v: Call)
    requires CallsOk(cs, log, maxMessage) && CallOk(v, maxMessage, |LogOf(log, t)|)
    ensures CallsOk(cs[t := v], log, maxMessage)
  {
  }

  lemma CallsOkWoken(cs: map<nat, Call>, log: map<nat, seq<Outcome>>, maxMessage: nat, readers: bool, writers: bool)
    requires CallsOk(cs, log, maxMessage)
    ensures CallsOk(Woken(cs, readers, writers), log, maxMessage)
  {
  }

  lemma CallsOkSignalSend(cs: map<nat, Call>, log: map<nat, seq<Outcome>>, maxMessage: nat, wake: Option<nat>)
    requires CallsOk(cs, log, maxMessage)
    ensures CallsOk(SignalSend(cs, wake), log, maxMessage)
  {
    if wake.Some? && wake.value in cs {
      CallsOkSets(cs, log, maxMessage, wake.value, WakeSend(cs[wake.value]));
    }
  }

  lemma LogAppends(log: map<nat, seq<Outcome>>, t: nat, o: Outcome, maxMessage: nat)
    requires LogOk(log, maxMessage) && OutcomeOk(o, maxMessage)
    ensures LogOk(log[t := LogOf(log, t) + [o]], maxMessage)
  {
  }

  lemma RefusalRecorded(log: map<nat, seq<Outcome>>, accepted: seq<Message>, t: nat, o: Outcome)
    requires Recorded(log, accepted) && o.code != 0
    ensures Recorded(log[t := LogOf(log, t) + [o]], accepted)
  {
  }

  lemma AcceptanceRecorded(log: map<nat, seq<Outcome>>, accepted: seq<Message>, o: Outcome, m: Message)
    requires Recorded(log, accepted) && o.code == 0 && o.data == m.data && m.number == |LogOf(log, m.sender)|
    ensures Recorded(log[m.sender := LogOf(log, m.sender) + [o]], accepted + [m])
  {
    var t := m.sender;
    var log': map<nat, seq<Outcome>> := log[t := LogOf(log, t) + [o]];
    var acc' := accepted + [m];
    forall u, n | u in log' && 0 <= n < |log'[u]| && log'[u][n].code == 0
      ensures exists i :: 0 <= i < |acc'| && SentBy(acc'[i], u, n)
    {
      if u == t && n == m.number {
        assert SentBy(acc'[|accepted|], u, n);
      } else {
        var i :| 0 <= i < |accepted| && SentBy(accepted[i], u, n);
        assert SentBy(acc'[i], u, n);
      }
    }
  }

  lemma CallsOkSignalRecv(cs: map<nat, Call>, log: map<nat, seq<Outcome>>, maxMessage: nat, wake: Option<nat>)
    requires CallsOk(cs, log, maxMessage)
    ensures CallsOk(SignalRecv(cs, wake), log, maxMessage)
  {
    if wake.Some? && wake.value in cs {
      CallsOkSets(cs, log, maxMessage, wake.value, WakeRecv(cs[wake.value]));
    }
  }

  lemma CallsOkEnds(cs: map<nat, Call>, log: map<nat, seq<Outcome>>, maxMessage: nat, t: nat, o: Outcome)
    requires CallsOk(cs, log, maxMessage)
    ensures CallsOk(cs - {t}, log[t := LogOf(log, t) + [o]], maxMessage)
  {
  }

  /** A send returns `o` without having entered the channel. */
  lemma RefusalLogged(cs: map<nat, Call>, log: map<nat, seq<Outcome>>, accepted: seq<Message>, maxMessage: nat,
                      t: nat, o: Outcome)
    requires Logged(cs, log, accepted, maxMessage) && OutcomeOk(o, maxMessage) && o.code != 0
    ensures Logged(cs - {t}, log[t := LogOf(log, t) + [o]], accepted, maxMessage)
  {
    CallsOkEnds(cs, log, maxMessage, t, o);
    LogAppends(log, t, o, maxMessage);
    RefusalRecorded(log, accepted, t, o);
  }

  /** A send returns `o` with the message `m` in the channel. */
  lemma AcceptanceLogged(cs: map<nat, Call>, log: map<nat, seq<Outcome>>, accepted: seq<Message>, maxMessage: nat,
                         o: Outcome, m: Message)
    requires Logged(cs, log, accepted, maxMessage) && OutcomeOk(o, maxMessage)
    requires o.code == 0 && o.data == m.data && m.number == |LogOf(log, m.sender)|
    ensures Logged(cs - {m.sender}, log[m.sender := LogOf(log, m.sender) + [o]], accepted + [m], maxMessage)
  {
    CallsOkEnds(cs, log, maxMessage, m.sender, o);
    LogAppends(log, m.sender, o, maxMessage);
    AcceptanceRecorded(log, accepted, o, m);
  }
}
