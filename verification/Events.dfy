/**
 The event ring buffer and its flush (internal/events/buffer.go,
 internal/transport/events.go).
 */
module Events {

  // ---- a bounded queue that drops its oldest element ----

  function Enqueue<T>(q: seq<T>, cap: nat, e: T): seq<T> {
    if |q| == cap && cap > 0 then q[1..] + [e] else q + [e]
  }

  function PushAll<T>(q: seq<T>, cap: nat, es: seq<T>): seq<T>
    decreases |es|
  {
    if es == [] then q else PushAll(Enqueue(q, cap, es[0]), cap, es[1..])
  }

  /** The last cap elements. */
  function Newest<T>(s: seq<T>, cap: nat): seq<T> {
    if |s| <= cap then s else s[|s| - cap..]
  }

  /** Pushing keeps exactly the newest elements, in order. */
  lemma {:induction false} PushAllKeepsNewest<T>(q: seq<T>, cap: nat, es: seq<T>)
    requires 1 <= cap && |q| <= cap
    ensures PushAll(q, cap, es) == Newest(q + es, cap)
    decreases |es|
  {
    if es == [] {
      assert q + es == q;
    } else {
      var q' := Enqueue(q, cap, es[0]);
      PushAllKeepsNewest(q', cap, es[1..]);
      NewestStep(q, cap, es);
    }
  }

  lemma NewestStep<T>(q: seq<T>, cap: nat, es: seq<T>)
    requires 1 <= cap && |q| <= cap && es != []
    ensures Newest(Enqueue(q, cap, es[0]) + es[1..], cap) == Newest(q + es, cap)
  {
    assert q + es == q + [es[0]] + es[1..];
    if |q| == cap {
      assert q[1..] + [es[0]] + es[1..] == (q + es)[1..];
    }
  }

  /**
   Events put back after a failed flush, behind `q` that was pushed meanwhile:
   none of them is lost; an overflow drops the newer ones.
   */
  lemma RequeueDropsNewer<T>(q: seq<T>, cap: nat, back: seq<T>)
    requires 1 <= cap && |q| <= cap && |back| <= cap
    ensures var d := if |q| + |back| <= cap then 0 else |q| + |back| - cap;
            d <= |q| && PushAll(q, cap, back) == q[d..] + back
  {
    PushAllKeepsNewest(q, cap, back);
  }

  ghost predicate Distinct<T>(s: seq<T>) {
    forall i, j :: 0 <= i < j < |s| ==> s[i] != s[j]
  }

  /**
   So "the oldest are dropped" holds across a failed flush exactly when all fit:
   `back` was produced before `q`, and the newest cap events of both are kept
   if and only if nothing had to be dropped.
   */
  lemma DropsOldestIffAllFit<T>(q: seq<T>, cap: nat, back: seq<T>)
    requires 1 <= cap && |q| <= cap && |back| <= cap
    requires back != [] && Distinct(back + q)
    ensures multiset(PushAll(q, cap, back)) == multiset(Newest(back + q, cap)) <==> |q| + |back| <= cap
  {
    if |q| + |back| <= cap {
      KeepsAll(q, cap, back);
    } else {
      OnlyOnce(back + q, |q| + |back| - cap);
      LosesNewest(q, cap, back);
    }
  }

  lemma KeepsAll<T>(q: seq<T>, cap: nat, back: seq<T>)
    requires 1 <= cap && |q| + |back| <= cap
    ensures multiset(PushAll(q, cap, back)) == multiset(Newest(back + q, cap))
  {
    RequeueDropsNewer(q, cap, back);
    assert q[0..] == q;
  }

  lemma LosesNewest<T>(q: seq<T>, cap: nat, back: seq<T>)
    requires 1 <= cap && |q| <= cap && |back| <= cap < |q| + |back|
    requires back[0] !in (back + q)[|q| + |back| - cap..]
    ensures multiset(PushAll(q, cap, back)) != multiset(Newest(back + q, cap))
  {
    var a := PushAll(q, cap, back);
    assert back[0] in a by {
      RequeueDropsNewer(q, cap, back);
      InTail(q[|q| + |back| - cap..], back);
    }
    BagsDiffer(a, Newest(back + q, cap), back[0]);
  }

  lemma BagsDiffer<T>(a: seq<T>, b: seq<T>, x: T)
    requires x in a && x !in b
    ensures multiset(a) != multiset(b)
  {
    assert x in multiset(a) && x !in multiset(b);
  }

  lemma InTail<T>(a: seq<T>, b: seq<T>)
    requires b != []
    ensures b[0] in a + b
  {
    assert (a + b)[|a|] == b[0];
  }

  lemma OnlyOnce<T>(s: seq<T>, d: nat)
    requires 0 < d <= |s| && Distinct(s)
    ensures s[0] !in s[d..]
  {
  }

  // ---- the circular buffer refines it ----

  /** x modulo n, for x below 2 * n. */
  function Wrap(x: nat, n: nat): nat {
    if x < n then x else x - n
  }

  /** n elements of s in a circle, from head on. */
  function Ring<T>(s: seq<T>, head: nat, n: nat): (r: seq<T>)
    requires head < |s| && n <= |s|
    ensures |r| == n && forall i :: 0 <= i < n ==> r[i] == s[Wrap(head + i, |s|)]
  {
    seq(n, i requires 0 <= i < n => s[Wrap(head + i, |s|)])
  }

  lemma RingAppend<T>(s: seq<T>, head: nat, n: nat, e: T)
    requires head < |s| && n < |s|
    ensures Ring(s[Wrap(head + n, |s|) := e], head, n + 1) == Ring(s, head, n) + [e]
  {
    var r, old_ := Ring(s[Wrap(head + n, |s|) := e], head, n + 1), Ring(s, head, n);
    forall i | 0 <= i < n ensures r[i] == old_[i] {
      assert Wrap(head + i, |s|) != Wrap(head + n, |s|);
    }
  }

  /** Overwriting the oldest of a full circle. */
  lemma RingOverwrite<T>(s: seq<T>, head: nat, e: T)
    requires head < |s|
    ensures Ring(s[head := e], Wrap(head + 1, |s|), |s|) == Ring(s, head, |s|)[1..] + [e]
  {
    var next := Wrap(head + 1, |s|);
    var r, old_ := Ring(s[head := e], next, |s|), Ring(s, head, |s|);
    forall i | 0 <= i < |s| ensures r[i] == (old_[1..] + [e])[i] {
      if i < |s| - 1 {
        assert old_[1..][i] == old_[i + 1];
        assert Wrap(next + i, |s|) == Wrap(head + (i + 1), |s|) != head;
      } else {
        assert Wrap(next + i, |s|) == head;
      }
    }
  }

  /** The next place in the circle. */
  method Advance(i: nat, cap: nat) returns (j: nat)
    requires i < cap
    ensures j == Wrap(i + 1, cap)
  {
    ModWraps(i + 1, cap);
    j := (i + 1) % cap;
  }

  class RingBuffer<T(0)> {
    const cap: nat
    const buf: array<T>
    var head: nat
    var tail: nat
    var size: nat
    var dropped: nat

    ghost predicate Valid()
      reads this, buf
    {
      cap >= 1 && buf.Length == cap && head < cap && size <= cap && tail == Wrap(head + size, cap)
    }

    ghost function Contents(): (q: seq<T>)
      requires Valid()
      reads this, buf
    {
      Ring(buf[..], head, size)
    }

    /** NewRingBuffer panics on a smaller capacity. */
    constructor (capacity: nat)
      requires capacity >= 1
      ensures Valid() && Contents() == [] && cap == capacity && dropped == 0 && fresh(buf)
    {
      cap := capacity;
      buf := new T[capacity];
      head, tail, size, dropped := 0, 0, 0, 0;
    }

    method Push(e: T)
      requires Valid()
      modifies this`head, this`tail, this`size, this`dropped, buf
      ensures Valid()
      ensures Contents() == Enqueue(old(Contents()), cap, e)
      ensures dropped == old(dropped) + (if old(size) == cap then 1 else 0)
    {
      ghost var before := buf[..];
      if size == cap {
        RingOverwrite(before, head, e);
        buf[tail] := e;
        assert buf[..] == before[tail := e];
        head := Advance(head, cap);
        tail := Advance(tail, cap);
        dropped := dropped + 1;
        return;
      }
      RingAppend(before, head, size, e);
      buf[tail] := e;
      assert buf[..] == before[tail := e];
      tail := Advance(tail, cap);
      size := size + 1;
    }

    method Drain() returns (out: seq<T>)
      requires Valid()
      modifies this`head, this`tail, this`size
      ensures Valid() && Contents() == [] && out == old(Contents()) && dropped == old(dropped)
    {
      out := [];
      if size == 0 {
        return;
      }
      ghost var q := Contents();
      var i := 0;
      while i < size
        invariant Valid() && Contents() == q && 0 <= i <= size && |out| == i && dropped == old(dropped)
        invariant forall k :: 0 <= k < i ==> out[k] == q[k]
      {
        ModWraps(head + i, cap);
        out := out + [buf[(head + i) % cap]];
        i := i + 1;
      }
      assert out == q;
      head, tail, size := 0, 0, 0;
    }

    method Len() returns (n: nat)
      requires Valid()
      ensures n == |Contents()|
    {
      n := size;
    }
  }

  lemma ModWraps(x: nat, n: nat)
    requires n >= 1 && x < 2 * n
    ensures x % n == Wrap(x, n)
  {
    if x >= n {
      var q := x / n;
      assert x == n * q + x % n;
      MulBounds(n, q);
    }
  }

  lemma MulBounds(n: nat, q: int)
    requires n >= 1
    ensures q >= 2 ==> n * q >= 2 * n
    ensures q <= 0 ==> n * q <= 0
    ensures q == 1 ==> n * q == n
  {
  }
}
