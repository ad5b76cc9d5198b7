/**
  Counting threads by program counter.

  Every protocol in this project keeps a finite map from ids to program counters, so that any
  number of threads can take part. The wake-up arguments compare how many of them stand at a given
  point, and the lemmas here say how such a count moves when one entry is set or dropped, or when a
  broadcast rewrites all of them.
 */
module Threads {

  datatype Option<+T> = None | Some(value: T)

  const INT32_MAX := 0x7fff_ffff

  /** A handle on a reference-counted core. */
  datatype HandlePc =
    | Open
    | Dropping  // the locked part of the finalizer is done, its reference not yet released
    | Released

  function One(b: bool): nat { if b then 1 else 0 }

  /** The ids whose entry satisfies `p`. */
  ghost function At<P(!new)>(m: map<nat, P>, p: P -> bool): set<nat> {
    set t | t in m && p(m[t])
  }

  ghost function Count<P(!new)>(m: map<nat, P>, p: P -> bool): nat {
    |At(m, p)|
  }

  /** One if the entry `t` of `m` satisfies `p`, zero otherwise. */
  ghost function Here<P(!new)>(m: map<nat, P>, t: nat, p: P -> bool): nat {
    One(t in m && p(m[t]))
  }

  lemma SetPut(a: set<nat>, t: nat)
    ensures |a - {t}| == |a| - One(t in a)
  {
    if t in a {
      assert a == (a - {t}) + {t};
    } else {
      assert a == a - {t};
    }
  }

  lemma AtPut<P(!new)>(m: map<nat, P>, t: nat, v: P, p: P -> bool)
    ensures t in At(m[t := v], p) <==> p(v)
    ensures At(m[t := v], p) - {t} == At(m, p) - {t}
  {
    forall u: nat | u != t ensures u in At(m[t := v], p) <==> u in At(m, p) {
    }
  }

  lemma CountPut<P(!new)>(m: map<nat, P>, t: nat, v: P, p: P -> bool)
    ensures Count(m[t := v], p) == Count(m, p) - Here(m, t, p) + One(p(v))
  {
    AtPut(m, t, v, p);
    SetPut(At(m, p), t);
    SetPut(At(m[t := v], p), t);
  }

  lemma CountDrop<P(!new)>(m: map<nat, P>, t: nat, p: P -> bool)
    ensures Count(m - {t}, p) == Count(m, p) - Here(m, t, p)
  {
    SetPut(At(m, p), t);
    assert At(m - {t}, p) == At(m, p) - {t};
  }

  /** A count is positive exactly when some entry satisfies the predicate. */
  lemma CountPositive<P(!new)>(m: map<nat, P>, p: P -> bool)
    ensures Count(m, p) > 0 <==> exists t :: t in m && p(m[t])
  {
    if t :| t in m && p(m[t]) {
      assert t in At(m, p);
    }
    if Count(m, p) > 0 {
      var t :| t in At(m, p);
    }
  }

  /** A signal can find somebody asleep if there is anybody. */
  lemma SomeSleeper<P(!new)>(m: map<nat, P>, p: P -> bool) returns (wake: Option<nat>)
    ensures wake.Some? ==> wake.value in m && p(m[wake.value])
    ensures wake.None? ==> Count(m, p) == 0
  {
    CountPositive(m, p);
    if Count(m, p) > 0 {
      var t :| t in m && p(m[t]);
      wake := Some(t);
    } else {
      wake := None;
    }
  }

  /** What a broadcast does: every entry is rewritten by `f`. */
  function Each<P>(m: map<nat, P>, f: P -> P): (r: map<nat, P>)
    ensures r.Keys == m.Keys && forall t :: t in m ==> r[t] == f(m[t])
  {
    map t | t in m :: f(m[t])
  }

  lemma CountEach<P(!new)>(m: map<nat, P>, f: P -> P, p: P -> bool, q: P -> bool)
    requires forall v :: q(f(v)) == p(v)
    ensures Count(Each(m, f), q) == Count(m, p)
  {
    assert At(Each(m, f), q) == At(m, p);
  }

  /** Disjoint predicates count separately. */
  lemma CountOr<P(!new)>(m: map<nat, P>, p: P -> bool, q: P -> bool, either: P -> bool)
    requires forall v :: either(v) == (p(v) || q(v))
    requires forall v :: !(p(v) && q(v))
    ensures Count(m, either) == Count(m, p) + Count(m, q)
  {
    assert At(m, either) == At(m, p) + At(m, q);
  }

  /** Predicates ordered by implication have ordered counts. */
  lemma CountImplies<P(!new)>(m: map<nat, P>, p: P -> bool, q: P -> bool)
    requires forall t :: t in m && p(m[t]) ==> q(m[t])
    ensures Count(m, p) <= Count(m, q)
  {
    Subset(At(m, p), At(m, q));
  }

  lemma {:induction false} Subset(a: set<nat>, b: set<nat>)
    requires a <= b
    ensures |a| <= |b|
  {
    if a != {} {
      var x :| x in a;
      Subset(a - {x}, b - {x});
    }
  }
}
