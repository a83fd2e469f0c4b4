/**
 * The pyRTOS `Mutex`: a single lock flag. It records no owner, so it is not
 * re-entrant, and `unlock` clears the flag whoever calls it.
 */
module Locks {

  /**
   * One poll of a `lock()` condition whose `has_lock` latch is `hasLock`, on a mutex
   * whose flag is `locked`: (ready, flag afterwards, latch afterwards).
   */
  function LockPoll(locked: bool, hasLock: bool): (r: (bool, bool, bool))
    ensures r.0 <==> hasLock || !locked
    ensures r.2 == r.0
    ensures hasLock || !r.0 ==> r.1 == locked
    ensures r.0 && !hasLock ==> r.1
  {
    if hasLock then (true, locked, true)
    else if locked then (false, true, false)
    else (true, true, true)
  }

  /** `nb_lock` on a mutex whose flag is `locked`: (acquired, flag afterwards). */
  function TryLock(locked: bool): (r: (bool, bool))
    ensures r.0 <==> !locked
    ensures r.1
  {
    if locked then (false, true) else (true, true)
  }

  class Mutex {
    var locked: bool

    constructor ()
      ensures !locked
    {
      locked := false;
    }

    /** One poll of the generator returned by `lock()`; the caller keeps its `has_lock` latch. */
    method PollLock(hasLock: bool) returns (ready: bool, hasLock': bool)
      modifies this
      ensures (ready, locked, hasLock') == LockPoll(old(locked), hasLock)
      ensures ready == (hasLock || !old(locked))
      ensures hasLock' == ready && (ready && !hasLock ==> locked)
      ensures !ready ==> locked == old(locked)
    {
      if hasLock {
        ready, hasLock' := true, true;
      } else if locked {
        ready, hasLock' := false, false;
      } else {
        locked := true;
        ready, hasLock' := true, true;
      }
    }

    method NbLock() returns (ok: bool)
      modifies this
      ensures (ok, locked) == TryLock(old(locked))
      ensures ok == !old(locked) && locked
    {
      if locked {
        ok := false;
      } else {
        locked := true;
        ok := true;
      }
    }

    /** Clears the flag unconditionally: there is no owner to check. */
    method Unlock()
      modifies this
      ensures !locked
    {
      locked := false;
    }
  }

  /** Once a `lock()` condition has answered True it answers True on every later poll, whatever the flag. */
  function LockRun(locked: seq<bool>, hasLock: bool): (r: seq<bool>)
    ensures |r| == |locked|
  {
    if locked == [] then []
    else
      var (ready, _, latch) := LockPoll(locked[0], hasLock);
      [ready] + LockRun(locked[1..], latch)
  }

  /**
   * `locked[k]` is the flag the condition sees at its k-th poll (other tasks may lock
   * and unlock in between): after the first True every answer is True.
   */
  lemma {:induction false} LockLatches(locked: seq<bool>, hasLock: bool, k: nat)
    requires k < |locked| && LockRun(locked, hasLock)[k]
    ensures forall j :: k <= j < |locked| ==> LockRun(locked, hasLock)[j]
  {
    var latch := LockPoll(locked[0], hasLock).2;
    if k == 0 {
      assert latch;
      forall j | 0 < j < |locked| ensures LockRun(locked, hasLock)[j] {
        AlwaysReadyOnceLatched(locked[1..], j - 1);
      }
    } else {
      LockLatches(locked[1..], latch, k - 1);
    }
  }

  lemma {:induction false} AlwaysReadyOnceLatched(locked: seq<bool>, j: nat)
    requires j < |locked|
    ensures LockRun(locked, true)[j]
  {
    if j > 0 {
      AlwaysReadyOnceLatched(locked[1..], j - 1);
    }
  }

  /** What happens to one mutex: an `nb_lock` call, a poll of `lock()` condition number `i`, an `unlock` call. */
  datatype Event = NbLock | Poll(i: nat) | Unlock

  ghost predicate EventsFit(latches: seq<bool>, events: seq<Event>)
  {
    forall k :: 0 <= k < |events| && events[k].Poll? ==> events[k].i < |latches|
  }

  /**
   * Number of acquisitions (an `nb_lock` that returns True, or a `lock()` condition
   * setting its latch) when `events` run on a mutex with flag `locked`, where
   * `latches[i]` is condition i's `has_lock`.
   */
  function Acquisitions(locked: bool, latches: seq<bool>, events: seq<Event>): (n: nat)
    requires EventsFit(latches, events)
    decreases events
  {
    if events == [] then 0
    else
      match events[0]
      case NbLock =>
        var (ok, l) := TryLock(locked);
        (if ok then 1 else 0) + Acquisitions(l, latches, events[1..])
      case Poll(i) =>
        var (_, l, latch) := LockPoll(locked, latches[i]);
        (if latch && !latches[i] then 1 else 0) + Acquisitions(l, latches[i := latch], events[1..])
      case Unlock =>
        Acquisitions(false, latches, events[1..])
  }

  /** Mutual exclusion: between two `unlock` calls at most one `nb_lock` or `lock()` poll acquires. */
  lemma {:induction false} MutualExclusion(locked: bool, latches: seq<bool>, events: seq<Event>)
    requires EventsFit(latches, events)
    requires forall k :: 0 <= k < |events| ==> !events[k].Unlock?
    ensures Acquisitions(locked, latches, events) <= (if locked then 0 else 1)
    decreases events
  {
    if events != [] {
      match events[0]
      case NbLock =>
        MutualExclusion(true, latches, events[1..]);
      case Poll(i) =>
        var (_, l, latch) := LockPoll(locked, latches[i]);
        MutualExclusion(l, latches[i := latch], events[1..]);
    }
  }
}
