/**
  The bounded ring buffer that the thread pool and both channels keep under their lock: an array of
  slots, a head, a tail and a count, where an empty slot holds NULL.
 */
module Rings {
  import opened Threads

  /** Where the `k`-th element of a ring of `n` slots starting at `head` is stored. */
  function Slot(head: nat, k: nat, n: nat): nat {
    if head + k < n then head + k else head + k - n
  }

  /** Past the first slot the others follow one place later, and the first comes last. */
  lemma SlotShifts(head: nat, next: nat, n: nat)
    requires head < n && next == Slot(head, 1, n)
    ensures forall k :: 0 <= k < n - 1 ==> Slot(next, k, n) == Slot(head, k + 1, n)
    ensures Slot(next, n - 1, n) == head == Slot(head, 0, n)
  {
  }

  /** The code's modulo is one wrap at the end of the array. */
  lemma Wraps(x: nat, n: nat)
    requires x < 2 * n
    ensures x % n == if x < n then x else x - n
  {
    if x >= n {
      var d := x / n;
      assert x == n * d + x % n;
      assert d <= 0 ==> n * d <= 0;
      assert d >= 2 ==> n * d >= n * 2;
    }
  }

  /** The values of the slots that are not NULL, in slot order. */
  ghost function Held<T>(slots: seq<Option<T>>): seq<T> {
    if slots == [] then []
    else (if slots[0].Some? then [slots[0].value] else []) + Held(slots[1..])
  }

  lemma {:induction false} HeldConcat<T>(a: seq<Option<T>>, b: seq<Option<T>>)
    ensures Held(a + b) == Held(a) + Held(b)
  {
    if a == [] {
      assert a + b == b;
    } else {
      HeldConcat(a[1..], b);
      assert (a + b)[1..] == a[1..] + b;
    }
  }

  /** Slots whose first `n` entries are live and whose other entries are NULL hold those `n` values. */
  lemma {:induction false} HeldPrefix<T>(slots: seq<Option<T>>, live: seq<T>)
    requires |live| <= |slots|
    requires forall k :: 0 <= k < |slots| ==> slots[k] == if k < |live| then Some(live[k]) else None
    ensures Held(slots) == live
  {
    if slots != [] {
      HeldPrefix(slots[1..], if live == [] then [] else live[1..]);
    }
  }

  lemma HeldRotates<T>(a: seq<Option<T>>, b: seq<Option<T>>)
    ensures multiset(Held(a + b)) == multiset(Held(b + a))
  {
    HeldConcat(a, b);
    HeldConcat(b, a);
  }

  class Ring<T> {
    const slots: array<Option<T>>
    var head: nat
    var tail: nat
    var count: nat

    ghost predicate Valid()
      reads this, slots
    {
      && slots.Length > 0
      && head < slots.Length && tail < slots.Length && count <= slots.Length
      && tail == Slot(head, count, slots.Length)
         // the slots that are not NULL are exactly the live window
      && forall k :: 0 <= k < slots.Length ==> (slots[Slot(head, k, slots.Length)].Some? <==> k < count)
    }

    /** The elements from oldest to newest. */
    ghost function Contents(): (s: seq<T>)
      requires Valid()
      reads this, slots
      ensures |s| == count
    {
      seq(count, k requires 0 <= k < count && Valid() reads this, slots => slots[Slot(head, k, slots.Length)].value)
    }

    constructor (capacity: nat)
      requires capacity > 0
      ensures Valid() && fresh(slots) && slots.Length == capacity && Contents() == []
    {
      slots := new Option<T>[capacity](_ => None);
      head, tail, count := 0, 0, 0;
    }

    method Put(x: T)
      requires Valid() && count < slots.Length
      modifies this, slots
      ensures Valid() && Contents() == old(Contents()) + [x]
    {
      ghost var n := slots.Length;
      slots[tail] := Some(x);
      Wraps(tail + 1, n);
      tail := (tail + 1) % slots.Length;
      count := count + 1;
      assert Contents() == old(Contents()) + [x];
    }

    method Take() returns (x: T)
      requires Valid() && count > 0
      modifies this, slots
      ensures Valid() && old(Contents()) == [x] + Contents()
    {
      ghost var n := slots.Length;
      SlotShifts(head, Slot(head, 1, n), n);
      x := slots[head].value;
      slots[head] := None;
      Wraps(head + 1, n);
      head := (head + 1) % slots.Length;
      count := count - 1;
      assert old(Contents()) == [x] + Contents();
    }

    /** The loop of `sync_thread_pool_core_release`: visits the live window from the oldest element. */
    method Leftovers() returns (out: seq<T>)
      requires Valid()
      ensures out == Contents()
    {
      out := [];
      for index := 0 to count
        invariant out == Contents()[..index]
      {
        Wraps(head + index, slots.Length);
        assert slots[Slot(head, index, slots.Length)].Some?;
        out := out + [slots[(head + index) % slots.Length].value];
      }
    }

    /** The loop of both channels' core release: visits every slot in slot order and skips NULL. */
    method Sweep() returns (out: seq<T>)
      requires Valid()
      ensures multiset(out) == multiset(Contents())
    {
      out := [];
      for index := 0 to slots.Length
        invariant out == Held(slots[..index])
      {
        HeldConcat(slots[..index], [slots[index]]);
        assert slots[..index + 1] == slots[..index] + [slots[index]];
        if slots[index].Some? {
          out := out + [slots[index].value];
        }
      }
      assert slots[..slots.Length] == slots[..];
      SweepIsContents();
    }

    lemma SweepIsContents()
      requires Valid()
      ensures multiset(Held(slots[..])) == multiset(Contents())
    {
      var n, low, high := slots.Length, slots[..head], slots[head..];
      assert forall k :: 0 <= k < n ==> (high + low)[k] == slots[Slot(head, k, n)];
      HeldPrefix(high + low, Contents());
      HeldRotates(low, high);
      assert slots[..] == low + high;
    }
  }
}
