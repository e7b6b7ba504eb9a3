/** The queue `data_puller` fills: before each value is put, values are taken
    from the front while the queue holds more than ten. */
module Streaming {

  /** Eviction runs while the queue holds more than this many values. */
  const BACKLOG: nat := 10

  /** The queue after `while data_q.qsize() > 10: data_q.get()`: its last ten
      values when it held more, otherwise unchanged. */
  function Evicted<T>(q: seq<T>): seq<T>
  {
    if |q| > BACKLOG then q[|q| - BACKLOG..] else q
  }

  /** The queue after one eviction-then-put step with value v. */
  function Pushed<T>(q: seq<T>, v: T): seq<T>
  {
    Evicted(q) + [v]
  }

  /** The queue after pushing the values of vs one at a time, in order. */
  function PushAll<T>(q: seq<T>, vs: seq<T>): seq<T>
  {
    if vs == [] then q else Pushed(PushAll(q, vs[..|vs| - 1]), vs[|vs| - 1])
  }

  /** The newest eleven values of s, or all of s when it is shorter: what a
      queue that has just been put into can hold. */
  function Window<T>(s: seq<T>): seq<T>
  {
    if |s| > BACKLOG + 1 then s[|s| - (BACKLOG + 1)..] else s
  }

  /** One push keeps the newest eleven values of q followed by v: what
      survives keeps its order, is taken from the back of q, and v comes
      last. A queue of ten or fewer loses nothing. */
  lemma PushedWindow<T>(q: seq<T>, v: T)
    ensures Pushed(q, v) == Window(q + [v])
    ensures |Pushed(q, v)| <= BACKLOG + 1 && Pushed(q, v)[|Pushed(q, v)| - 1] == v
    ensures |q| <= BACKLOG ==> Pushed(q, v) == q + [v]
  {
  }

  /** Trimming to the window before appending makes no difference once the
      result is trimmed again. */
  lemma WindowAppend<T>(s: seq<T>, v: T)
    ensures Window(Window(s) + [v]) == Window(s + [v])
  {
  }

  /** Pushing a non-empty run of values leaves the newest eleven values of q
      followed by vs, in their original order. */
  lemma {:induction false} PushAllWindow<T>(q: seq<T>, vs: seq<T>)
    requires vs != []
    ensures PushAll(q, vs) == Window(q + vs)
  {
    var init, v := vs[..|vs| - 1], vs[|vs| - 1];
    assert q + vs == (q + init) + [v] by {
      assert vs == init + [v];
    }
    PushedWindow(PushAll(q, init), v);
    if init == [] {
      assert q + init == q;
    } else {
      PushAllWindow(q, init);
      WindowAppend(q + init, v);
    }
  }

  /** Whatever is pushed, the queue never holds more than eleven values once
      a value has been put, and a queue that never exceeds eleven loses
      nothing. */
  lemma PushAllBound<T>(q: seq<T>, vs: seq<T>)
    ensures |PushAll(q, vs)| <= if vs == [] then |q| else BACKLOG + 1
    ensures |q| + |vs| <= BACKLOG + 1 ==> PushAll(q, vs) == q + vs
  {
    if vs != [] {
      PushAllWindow(q, vs);
    } else {
      assert q + vs == q;
    }
  }

  /** Pushing two runs one after the other is pushing their concatenation. */
  lemma {:induction false} PushAllAppend<T>(q: seq<T>, a: seq<T>, b: seq<T>)
    ensures PushAll(PushAll(q, a), b) == PushAll(q, a + b)
  {
    if b == [] {
      assert a + b == a;
    } else {
      var init, v := b[..|b| - 1], b[|b| - 1];
      var ab := a + b;
      assert ab != [] && ab[..|ab| - 1] == a + init && ab[|ab| - 1] == v;
      assert PushAll(q, ab) == Pushed(PushAll(q, a + init), v);
      PushAllAppend(q, a, init);
    }
  }

  /** Pushing 1..11 into an empty queue keeps all eleven values; a twelfth
      push then evicts the oldest. */
  lemma PushElevenKeepsAll(vs: seq<int>)
    requires vs == [1, 2, 3, 4, 5, 6, 7, 8, 9, 10, 11]
    ensures PushAll([], vs) == vs
    ensures PushAll([], vs + [12]) == [2, 3, 4, 5, 6, 7, 8, 9, 10, 11, 12]
  {
    PushAllBound([], vs);
    assert [] + vs == vs;
    PushAllWindow([], vs + [12]);
    assert [] + (vs + [12]) == vs + [12];
  }

  /** The data queue, as the producer sees it. */
  class DataQueue {
    /** The queued values, oldest first. */
    var items: seq<real>

    constructor ()
      ensures items == []
    {
      items := [];
    }

    /** The eviction-then-put step of `data_puller`. */
    method Push(v: real)
      modifies this
      ensures items == Pushed(old(items), v)
    {
      while |items| > BACKLOG
        invariant |old(items)| > BACKLOG ==> BACKLOG <= |items| && items == old(items)[|old(items)| - |items|..]
        invariant |old(items)| <= BACKLOG ==> items == old(items)
        decreases |items|
      {
        items := items[1..];  // data_q.get()
      }
      items := items + [v];   // data_q.put(v)
    }
  }
}
