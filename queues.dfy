/**
 * The bounded FIFO `MessageQueue` with its blocking conditions (`send`, `recv`)
 * and non-blocking operations (`nb_send`, `nb_recv`).
 */
module Queues {
  import opened Wrappers

  /** A list owned by a task body and appended to in place: the `out_buffer` given to `recv`. */
  class Buffer<T> {
    var items: seq<T>

    constructor ()
      ensures items == []
    {
      items := [];
    }
  }

  /** The queue's bound: never more than `capacity` items (a capacity below 1 keeps it empty). */
  ghost predicate Bounded<T>(buffer: seq<T>, capacity: int)
  {
    |buffer| <= capacity || buffer == []
  }

  /** Adding `x` to contents `buffer`: accepted iff there is room, at the tail: (accepted, contents afterwards). */
  function Offer<T>(buffer: seq<T>, capacity: int, x: T): (r: (bool, seq<T>))
    ensures r.0 <==> |buffer| < capacity
    ensures r.0 ==> r.1 == buffer + [x] && |r.1| <= capacity
    ensures !r.0 ==> r.1 == buffer
  {
    if |buffer| < capacity then (true, buffer + [x]) else (false, buffer)
  }

  /** Taking from contents `buffer`: the oldest item, or None when empty: (item, contents afterwards). */
  function Take<T>(buffer: seq<T>): (r: (Option<T>, seq<T>))
    ensures r.0.Some? <==> buffer != []
    ensures r.0.Some? ==> buffer == [r.0.value] + r.1
    ensures r.0.None? ==> r.1 == buffer
  {
    if |buffer| > 0 then (Some(buffer[0]), buffer[1..]) else (None, buffer)
  }

  /**
   * One poll of a `recv(out_buffer)` condition whose `received` latch is `received`:
   * (ready, item appended to `out_buffer`, contents afterwards, latch afterwards).
   */
  function RecvPoll<T>(buffer: seq<T>, received: bool): (r: (bool, Option<T>, seq<T>, bool))
    ensures r.0 <==> received || buffer != []
    ensures r.3 == r.0
    ensures r.1.Some? <==> !received && buffer != []
    ensures r.1.Some? ==> buffer == [r.1.value] + r.2
    ensures r.1.None? ==> r.2 == buffer
  {
    if received then (true, None, buffer, true)
    else if |buffer| > 0 then (true, Some(buffer[0]), buffer[1..], true)
    else (false, None, buffer, false)
  }

  class MessageQueue<T> {
    const capacity: int
    var buffer: seq<T>

    ghost predicate Valid()
      reads this
    {
      Bounded(buffer, capacity)
    }

    constructor (capacity: int)
      ensures this.capacity == capacity && buffer == [] && Valid()
    {
      this.capacity := capacity;
      buffer := [];
    }

    /**
     * One poll of the generator returned by `send(msg)`. Its `sent` flag is never set,
     * so there is no latch: every poll that finds room enqueues `msg` again.
     */
    method PollSend(msg: T) returns (ready: bool)
      modifies this
      ensures (ready, buffer) == Offer(old(buffer), capacity, msg)
      ensures old(Valid()) ==> Valid()
    {
      if |buffer| < capacity {
        buffer := buffer + [msg];
        ready := true;
      } else {
        ready := false;
      }
    }

    method NbSend(msg: T) returns (ok: bool)
      modifies this
      ensures ok <==> old(|buffer|) < capacity
      ensures (ok, buffer) == Offer(old(buffer), capacity, msg)
      ensures old(Valid()) ==> Valid()
    {
      if |buffer| < capacity {
        buffer := buffer + [msg];
        ok := true;
      } else {
        ok := false;
      }
    }

    /** One poll of the generator returned by `recv(out)`; the caller keeps its `received` latch. */
    method PollRecv(out: Buffer<T>, received: bool) returns (ready: bool, received': bool)
      modifies this, out
      ensures var (r, item, b, latch) := RecvPoll(old(buffer), received);
        ready == r && buffer == b && received' == latch &&
        out.items == old(out.items) + (if item.Some? then [item.value] else [])
      ensures old(Valid()) ==> Valid()
    {
      if received {
        ready, received' := true, true;
      } else if |buffer| > 0 {
        received' := true;
        out.items := out.items + [buffer[0]];
        buffer := buffer[1..];
        ready := true;
      } else {
        ready, received' := false, false;
      }
    }

    method NbRecv() returns (r: Option<T>)
      modifies this
      ensures r.None? <==> old(buffer) == []
      ensures (r, buffer) == Take(old(buffer))
      ensures old(Valid()) ==> Valid()
    {
      if |buffer| > 0 {
        r := Some(buffer[0]);
        buffer := buffer[1..];
      } else {
        r := None;
      }
    }
  }

  /** `nb_send` of each of `xs` in turn: (the items accepted, contents afterwards). */
  function SendEach<T>(buffer: seq<T>, capacity: int, xs: seq<T>): (r: (seq<T>, seq<T>))
    decreases xs
  {
    if xs == [] then ([], buffer)
    else
      var (ok, b) := Offer(buffer, capacity, xs[0]);
      var (accepted, final) := SendEach(b, capacity, xs[1..]);
      ((if ok then [xs[0]] else []) + accepted, final)
  }

  /** `nb_recv` called `n` times in turn: (the answers, contents afterwards). */
  function RecvEach<T>(buffer: seq<T>, n: nat): (r: (seq<Option<T>>, seq<T>))
  {
    if n == 0 then ([], buffer)
    else
      var (item, b) := Take(buffer);
      var (got, final) := RecvEach(b, n - 1);
      ([item] + got, final)
  }

  function Somes<T>(s: seq<T>): (r: seq<Option<T>>)
  {
    seq(|s|, i requires 0 <= i < |s| => Some(s[i]))
  }

  /**
   * Accepted sends land at the tail in send order, the bound is kept, and when there is
   * room for all of `xs` every send is accepted.
   */
  lemma {:induction false} SendEachAppends<T>(buffer: seq<T>, capacity: int, xs: seq<T>)
    requires Bounded(buffer, capacity)
    ensures SendEach(buffer, capacity, xs).1 == buffer + SendEach(buffer, capacity, xs).0
    ensures Bounded(SendEach(buffer, capacity, xs).1, capacity)
    ensures |buffer| + |xs| <= capacity ==> SendEach(buffer, capacity, xs).0 == xs
    decreases xs
  {
    if xs != [] {
      var (ok, b) := Offer(buffer, capacity, xs[0]);
      SendEachAppends(b, capacity, xs[1..]);
      if ok {
        assert buffer + ([xs[0]] + SendEach(b, capacity, xs[1..]).0) == b + SendEach(b, capacity, xs[1..]).0;
        if |buffer| + |xs| <= capacity {
          assert [xs[0]] + xs[1..] == xs;
        }
      }
    }
  }

  function Nones<T>(n: nat): (r: seq<Option<T>>)
  {
    seq(n, i => None)
  }

  /** Once the queue is empty, every further `nb_recv` returns None and the queue stays empty. */
  lemma {:induction false} RecvEachEmpty<T>(n: nat)
    ensures RecvEach<T>([], n) == (Nones(n), [])
  {
    if n > 0 {
      RecvEachEmpty<T>(n - 1);
      assert Nones<T>(n) == [None] + Nones(n - 1);
      var (got, final) := RecvEach<T>([], n - 1);
      assert RecvEach<T>([], n) == ([None] + got, final);
    } else {
      assert Nones<T>(0) == [];
    }
  }

  /** `nb_recv` called at most `|buffer|` times returns the contents oldest first (see `RecvEachEmpty` for what follows). */
  lemma {:induction false} RecvEachInOrder<T>(buffer: seq<T>, n: nat)
    requires n <= |buffer|
    ensures RecvEach(buffer, n) == (Somes(buffer[..n]), buffer[n..])
  {
    if n == 0 {
      assert Somes(buffer[..0]) == [];
    } else {
      RecvEachInOrder(buffer[1..], n - 1);
      assert buffer[1..][n - 1..] == buffer[n..];
      assert buffer[..n] == [buffer[0]] + buffer[1..][..n - 1];
      SomesCons(buffer[0], buffer[1..][..n - 1]);
    }
  }

  lemma {:induction false} SomesCons<T>(x: T, s: seq<T>)
    ensures Somes([x] + s) == [Some(x)] + Somes(s)
  {
    assert forall i :: 0 <= i < |s| + 1 ==> Somes([x] + s)[i] == ([Some(x)] + Somes(s))[i];
  }

  /** FIFO round trip: what `nb_send` accepted, `nb_recv` returns, in the same order, behind what was queued. */
  lemma {:induction false} FifoRoundTrip<T>(buffer: seq<T>, capacity: int, xs: seq<T>)
    requires Bounded(buffer, capacity)
    ensures var (accepted, final) := SendEach(buffer, capacity, xs);
      RecvEach(final, |final|) == (Somes(buffer + accepted), [])
  {
    var (accepted, final) := SendEach(buffer, capacity, xs);
    SendEachAppends(buffer, capacity, xs);
    RecvEachInOrder(final, |final|);
    assert final[..|final|] == buffer + accepted;
    assert final[|final|..] == [];
  }

  /** The answers of successive polls of one `recv` condition, where `seen[k]` is the queue at poll k. */
  function RecvMoved<T>(seen: seq<seq<T>>, received: bool): (moved: seq<T>)
  {
    if seen == [] then []
    else
      var (_, item, _, latch) := RecvPoll(seen[0], received);
      (if item.Some? then [item.value] else []) + RecvMoved(seen[1..], latch)
  }

  /**
   * A `recv` condition moves exactly one item over its whole life: the head of the queue
   * at the first poll that finds it non-empty; nothing if it never does.
   */
  lemma {:induction false} RecvMovesOnce<T>(seen: seq<seq<T>>, k: nat)
    requires k <= |seen|
    requires forall j :: 0 <= j < k ==> seen[j] == []
    ensures RecvMoved(seen, false) == if k < |seen| && seen[k] != [] then [seen[k][0]] else RecvMoved(seen[k..], false)
  {
    if k > 0 {
      RecvMovesOnce(seen[1..], k - 1);
      assert seen[1..][k - 1..] == seen[k..];
    } else if |seen| > 0 && seen[0] != [] {
      RecvMovesNothingWhenLatched(seen[1..]);
    }
  }

  lemma {:induction false} RecvMovesNothingWhenLatched<T>(seen: seq<seq<T>>)
    ensures RecvMoved(seen, true) == []
  {
    if seen != [] {
      RecvMovesNothingWhenLatched(seen[1..]);
    }
  }

  /** A queue of capacity 2: three `nb_send` calls answer True, True, False; two `nb_recv` calls give the first two items. */
  method CapacityTwoScenario<T>(a: T, b: T, c: T) returns (s1: bool, s2: bool, s3: bool, r1: Option<T>, r2: Option<T>)
    ensures s1 && s2 && !s3
    ensures r1 == Some(a) && r2 == Some(b)
  {
    var q := new MessageQueue<T>(2);
    s1 := q.NbSend(a);
    s2 := q.NbSend(b);
    s3 := q.NbSend(c);
    r1 := q.NbRecv();
    r2 := q.NbRecv();
  }
}
