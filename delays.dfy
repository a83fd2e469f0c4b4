/** The cycle-count `delay(cycles)` blocking condition. */
module Delays {

  function Max0(n: int): (m: nat) { if n > 0 then n else 0 }

  /** One poll of a `delay` condition whose counter is `ttl`: (ready, counter afterwards). */
  function DelayPoll(ttl: int): (r: (bool, int))
    ensures r.0 <==> ttl <= 0
    ensures r.0 ==> r.1 == ttl
    ensures !r.0 ==> 0 <= r.1 == ttl - 1
  {
    if ttl > 0 then (false, ttl - 1) else (true, ttl)
  }

  /** The answers of `k` successive polls of a condition whose counter starts at `ttl`. */
  function DelayRun(ttl: int, k: nat): (r: seq<bool>)
    ensures |r| == k
  {
    if k == 0 then [] else [DelayPoll(ttl).0] + DelayRun(DelayPoll(ttl).1, k - 1)
  }

  /** `delay(cycles)` answers False on its first max(cycles, 0) polls and True on every later one. */
  lemma {:induction false} DelayFiresAfterCycles(cycles: int, k: nat)
    ensures forall i :: 0 <= i < k ==> DelayRun(cycles, k)[i] == (i >= Max0(cycles))
  {
    if k > 0 {
      DelayFiresAfterCycles(DelayPoll(cycles).1, k - 1);
      forall i | 0 <= i < k
        ensures DelayRun(cycles, k)[i] == (i >= Max0(cycles))
      {
        if i > 0 {
          assert DelayRun(cycles, k)[i] == DelayRun(DelayPoll(cycles).1, k - 1)[i - 1];
        }
      }
    }
  }
}
