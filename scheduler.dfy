/**
 * `default_scheduler`: one pass over the task list that polls blocked tasks, picks at
 * most one task by list order and priority, and steps it once.
 *
 * The decision part is the pure function `ScanAll` over the states the tasks had when
 * the pass began, which blocked tasks woke, and the priorities; the method is proved
 * against it and the selection rule is proved about it.
 */
module Scheduler {
  import opened Wrappers
  import opened Tasks
  import Locks

  /** The pass so far: the task chosen to run (`running_task`), and each visited task's state afterwards. */
  datatype Scan = Scan(choice: Option<nat>, after: seq<State>)

  /** Visiting the next task, whose state is `st`, whose conditions answered `woke`, and whose priority is `prio`. */
  function Visit(s: Scan, st: State, woke: bool, prio: int, prios: seq<int>): (r: Scan)
    requires s.choice.Some? ==> s.choice.value < |prios|
    ensures |r.after| == |s.after| + 1 && r.after[..|s.after|] == s.after
  {
    var i := |s.after|;
    match st
    case Ready =>
      Scan(if s.choice.None? then Some(i) else s.choice, s.after + [Ready])
    case Blocked =>
      if woke then Scan(if s.choice.None? then Some(i) else s.choice, s.after + [Ready])
      else Scan(s.choice, s.after + [Blocked])
    case Running =>
      if s.choice.None? || prio <= prios[s.choice.value] then Scan(Some(i), s.after + [Running])
      else Scan(s.choice, s.after + [Ready])
    case Suspended =>
      Scan(s.choice, s.after + [Suspended])
  }

  /** The whole pass over tasks with states `states`, poll outcomes `woke` and priorities `prios`. */
  function ScanAll(states: seq<State>, woke: seq<bool>, prios: seq<int>): (r: Scan)
    requires |states| == |woke| == |prios|
    ensures |r.after| == |states|
    ensures r.choice.Some? ==> r.choice.value < |states|
    decreases |states|
  {
    if |states| == 0 then Scan(None, [])
    else
      var n := |states| - 1;
      Visit(ScanAll(states[..n], woke[..n], prios[..n]), states[n], woke[n], prios[n], prios[..n])
  }

  /** A task in state `st` whose conditions answered `woke` could run this cycle: READY, RUNNING, or BLOCKED and woken. */
  predicate Candidate(st: State, woke: bool)
  {
    st == Ready || st == Running || (st == Blocked && woke)
  }

  /** The state a task is left in by the pass, unless it is the one chosen. */
  ghost predicate Left(st: State, woke: bool, after: State)
  {
    (st == Ready ==> after == Ready) &&
    (st == Suspended ==> after == Suspended) &&
    (st == Blocked ==> after == if woke then Ready else Blocked) &&
    (st == Running ==> after == Running || after == Ready)
  }

  /**
   * What the pass does to each task: READY stays READY, SUSPENDED is untouched, BLOCKED
   * becomes READY exactly when it woke, RUNNING stays RUNNING or is demoted to READY.
   */
  lemma {:induction false} ScanLeavesStates(states: seq<State>, woke: seq<bool>, prios: seq<int>)
    requires |states| == |woke| == |prios|
    ensures var r := ScanAll(states, woke, prios);
      forall i :: 0 <= i < |states| ==> Left(states[i], woke[i], r.after[i])
  {
    if |states| > 0 {
      var n := |states| - 1;
      ScanLeavesStates(states[..n], woke[..n], prios[..n]);
      var s := ScanAll(states[..n], woke[..n], prios[..n]);
      var r := ScanAll(states, woke, prios);
      VisitLeaves(s, states[n], woke[n], prios[n], prios[..n]);
      forall i | 0 <= i < n
        ensures Left(states[i], woke[i], r.after[i])
      {
        assert states[..n][i] == states[i] && woke[..n][i] == woke[i] && r.after[i] == s.after[i];
      }
    }
  }

  /** The task just visited is left as `Left` says. */
  lemma {:induction false} VisitLeaves(s: Scan, st: State, woke: bool, prio: int, prios: seq<int>)
    requires s.choice.Some? ==> s.choice.value < |prios|
    ensures Left(st, woke, Visit(s, st, woke, prio, prios).after[|s.after|])
  {
    var r := Visit(s, st, woke, prio, prios);
    assert r.after[|s.after|] == (r.after[..|s.after|] + [r.after[|s.after|]])[|s.after|];
  }

  /** The chosen task is a candidate, and the pass leaves it RUNNING if it was, READY otherwise. */
  lemma {:induction false} ScanChoiceRunnable(states: seq<State>, woke: seq<bool>, prios: seq<int>)
    requires |states| == |woke| == |prios|
    ensures var r := ScanAll(states, woke, prios);
      r.choice.Some? ==>
        Candidate(states[r.choice.value], woke[r.choice.value]) &&
        r.after[r.choice.value] == if states[r.choice.value] == Running then Running else Ready
  {
    if |states| > 0 {
      var n := |states| - 1;
      ScanChoiceRunnable(states[..n], woke[..n], prios[..n]);
      var s := ScanAll(states[..n], woke[..n], prios[..n]);
      var r := ScanAll(states, woke, prios);
      if r.choice.Some? && r.choice.value < n {
        var c := r.choice.value;
        assert r.choice == s.choice;
        assert states[..n][c] == states[c] && woke[..n][c] == woke[c] && r.after[c] == s.after[c];
      }
    }
  }

  /** A RUNNING task the pass demotes to READY is not the one chosen. */
  lemma {:induction false} ScanDemotedNotChosen(states: seq<State>, woke: seq<bool>, prios: seq<int>)
    requires |states| == |woke| == |prios|
    ensures var r := ScanAll(states, woke, prios);
      forall i :: 0 <= i < |states| && states[i] == Running && r.after[i] == Ready ==> r.choice != Some(i)
  {
    if |states| > 0 {
      var n := |states| - 1;
      ScanDemotedNotChosen(states[..n], woke[..n], prios[..n]);
      var s := ScanAll(states[..n], woke[..n], prios[..n]);
      var r := ScanAll(states, woke, prios);
      forall i | 0 <= i < n && states[i] == Running && r.after[i] == Ready
        ensures r.choice != Some(i)
      {
        assert states[..n][i] == states[i] && r.after[i] == s.after[i];
      }
    }
  }

  /** A task is chosen exactly when some task is a candidate. */
  lemma {:induction false} ScanChoosesWhenPossible(states: seq<State>, woke: seq<bool>, prios: seq<int>)
    requires |states| == |woke| == |prios|
    ensures ScanAll(states, woke, prios).choice.None? <==> forall i :: 0 <= i < |states| ==> !Candidate(states[i], woke[i])
  {
    if |states| > 0 {
      var n := |states| - 1;
      ScanChoosesWhenPossible(states[..n], woke[..n], prios[..n]);
      assert forall i :: 0 <= i < n ==> states[..n][i] == states[i] && woke[..n][i] == woke[i];
    }
  }

  /**
   * The leftover-RUNNING rule, for the first candidate `f`: some task is chosen, at or
   * after `f`, with a priority no larger than `f`'s; a chosen task that was not RUNNING
   * is `f` itself.
   */
  lemma {:induction false} ScanRunningRule(states: seq<State>, woke: seq<bool>, prios: seq<int>, f: nat)
    requires |states| == |woke| == |prios|
    requires f < |states| && Candidate(states[f], woke[f])
    requires forall k :: 0 <= k < f ==> !Candidate(states[k], woke[k])
    ensures var r := ScanAll(states, woke, prios);
      r.choice.Some? && f <= r.choice.value && prios[r.choice.value] <= prios[f] &&
      (states[r.choice.value] != Running ==> r.choice.value == f)
  {
    var n := |states| - 1;
    var s := ScanAll(states[..n], woke[..n], prios[..n]);
    var r := ScanAll(states, woke, prios);
    assert r == Visit(s, states[n], woke[n], prios[n], prios[..n]);
    if n == f {
      ScanChoosesWhenPossible(states[..n], woke[..n], prios[..n]);
      assert forall i :: 0 <= i < n ==> states[..n][i] == states[i] && woke[..n][i] == woke[i];
      assert s.choice.None?;
    } else {
      assert forall i :: 0 <= i < n ==> states[..n][i] == states[i] && woke[..n][i] == woke[i] && prios[..n][i] == prios[i];
      ScanRunningRule(states[..n], woke[..n], prios[..n], f);
      var c := s.choice.value;
      assert prios[..n][c] == prios[c];
      if states[n] == Running && prios[n] <= prios[c] {
        assert r.choice == Some(n);
      } else {
        assert r.choice == Some(c);
      }
    }
  }

  /** Every RUNNING task after the chosen one has a larger priority number and is demoted to READY. */
  lemma {:induction false} ScanLaterRunningDemoted(states: seq<State>, woke: seq<bool>, prios: seq<int>)
    requires |states| == |woke| == |prios|
    ensures var r := ScanAll(states, woke, prios);
      r.choice.Some? ==>
        forall j :: r.choice.value < j < |states| && states[j] == Running ==>
          prios[j] > prios[r.choice.value] && r.after[j] == Ready
  {
    if |states| > 0 {
      var n := |states| - 1;
      var s := ScanAll(states[..n], woke[..n], prios[..n]);
      var r := ScanAll(states, woke, prios);
      assert r == Visit(s, states[n], woke[n], prios[n], prios[..n]);
      ScanLaterRunningDemoted(states[..n], woke[..n], prios[..n]);
      if r.choice.Some? && r.choice.value < n {
        var c := r.choice.value;
        assert s.choice == Some(c);
        assert prios[..n][c] == prios[c];
        forall j | c < j < |states| && states[j] == Running
          ensures prios[j] > prios[c] && r.after[j] == Ready
        {
          if j < n {
            assert r.after[j] == s.after[j] && states[..n][j] == states[j] && prios[..n][j] == prios[j];
          }
        }
      }
    }
  }

  /** Priorities in ascending order, as `add_task` keeps the registry. */
  ghost predicate SortedPriorities(prios: seq<int>)
  {
    forall i, j :: 0 <= i < j < |prios| ==> prios[i] <= prios[j]
  }

  /** On a priority-sorted registry the chosen task has the smallest priority number of all candidates. */
  lemma {:induction false} ScanPicksHighestPriority(states: seq<State>, woke: seq<bool>, prios: seq<int>)
    requires |states| == |woke| == |prios| && SortedPriorities(prios)
    ensures var r := ScanAll(states, woke, prios);
      r.choice.Some? ==> forall j :: 0 <= j < |states| && Candidate(states[j], woke[j]) ==> prios[r.choice.value] <= prios[j]
  {
    var r := ScanAll(states, woke, prios);
    if r.choice.Some? {
      var c := r.choice.value;
      ScanChoosesWhenPossible(states, woke, prios);
      var f := FirstCandidate(states, woke);
      ScanRunningRule(states, woke, prios, f);
      ScanLaterRunningDemoted(states, woke, prios);
      forall j | 0 <= j < |states| && Candidate(states[j], woke[j])
        ensures prios[c] <= prios[j]
      {
        if j < c {
          assert f <= j;
          assert prios[f] <= prios[j];
        } else if j > c && states[j] != Running {
          assert prios[c] <= prios[j];
        }
      }
    }
  }

  /** At most one task is RUNNING: the processor runs one task at a time. */
  ghost predicate AtMostOneRunning(states: seq<State>)
  {
    forall i, j :: 0 <= i < j < |states| && states[i] == Running ==> states[j] != Running
  }

  /** If at most one task was RUNNING before the pass, the only task the pass can leave RUNNING is the chosen one. */
  lemma {:induction false} ScanOneRunning(states: seq<State>, woke: seq<bool>, prios: seq<int>)
    requires |states| == |woke| == |prios| && AtMostOneRunning(states)
    ensures var r := ScanAll(states, woke, prios);
      forall j :: 0 <= j < |states| && r.after[j] == Running ==> r.choice == Some(j)
  {
    if |states| > 0 {
      var n := |states| - 1;
      var S := states[..n];
      assert AtMostOneRunning(S) by {
        forall i, j | 0 <= i < j < n && S[i] == Running
          ensures S[j] != Running
        {
          assert S[i] == states[i] && S[j] == states[j];
        }
      }
      ScanOneRunning(S, woke[..n], prios[..n]);
      ScanLeavesStates(S, woke[..n], prios[..n]);
      var s := ScanAll(S, woke[..n], prios[..n]);
      var r := Visit(s, states[n], woke[n], prios[n], prios[..n]);
      assert r == ScanAll(states, woke, prios);
      forall j | 0 <= j <= n && r.after[j] == Running
        ensures r.choice == Some(j)
      {
        if j < n {
          assert r.after[j] == s.after[j];
          assert Left(S[j], woke[..n][j], s.after[j]);
          assert states[j] == S[j] == Running;
          assert states[n] != Running;
        } else {
          VisitLeaves(s, states[n], woke[n], prios[n], prios[..n]);
          assert states[n] == Running;
        }
      }
    }
  }

  /** The position of the first candidate. */
  function FirstCandidate(states: seq<State>, woke: seq<bool>): (f: nat)
    requires |states| == |woke|
    requires exists i :: 0 <= i < |states| && Candidate(states[i], woke[i])
    ensures f < |states| && Candidate(states[f], woke[f])
    ensures forall k :: 0 <= k < f ==> !Candidate(states[k], woke[k])
  {
    if Candidate(states[0], woke[0]) then 0
    else
      assert exists i :: 0 <= i < |states[1..]| && Candidate(states[1..][i], woke[1..][i]) by {
        var i :| 0 <= i < |states| && Candidate(states[i], woke[i]);
        assert states[1..][i - 1] == states[i] && woke[1..][i - 1] == woke[i];
      }
      1 + FirstCandidate(states[1..], woke[1..])
  }

  /**
   * Polling the conditions `conds` in order gave `answers` and left them as `next`, the
   * shared objects holding `stores[k]` before the `k`-th poll and the last of `stores` after
   * the last one: each polled condition answered and advanced as `Answered` says, the rest
   * are untouched, every answer but the last was False, and the list answered True
   * (`ready`) exactly when the last one did; when it answered False every condition was
   * polled.
   */
  ghost predicate Polled(conds: seq<Cond>, answers: seq<bool>, next: seq<Cond>, ready: bool, stores: seq<Store>)
  {
    |answers| <= |conds| == |next| && |stores| == |answers| + 1 &&
    (forall k :: 0 <= k < |answers| ==> Answered(conds[k], stores[k], answers[k], next[k], stores[k + 1])) &&
    next[|answers|..] == conds[|answers|..] &&
    (forall k :: 0 <= k < |answers| - 1 ==> !answers[k]) &&
    (ready <==> answers != [] && answers[|answers| - 1]) &&
    (!ready ==> |answers| == |conds|)
  }

  /**
   * Part way through polling `conds`: the first `|answers|` conditions were polled, each
   * answering, advancing and changing the store as `Answered` says, into `next` and
   * `stores`; the rest are untouched; every answer but the last was False; `ready` is the
   * last answer.
   */
  ghost predicate Polling(conds: seq<Cond>, answers: seq<bool>, next: seq<Cond>, ready: bool, stores: seq<Store>)
  {
    |answers| <= |conds| == |next| && |stores| == |answers| + 1 &&
    (forall k :: 0 <= k < |answers| ==> Answered(conds[k], stores[k], answers[k], next[k], stores[k + 1])) &&
    next[|answers|..] == conds[|answers|..] &&
    (forall k :: 0 <= k < |answers| - 1 ==> !answers[k]) &&
    (ready <==> answers != [] && answers[|answers| - 1])
  }

  /** Polling one more condition, after only False answers, turns `prev` into `next`. */
  lemma {:induction false} PollingStep(conds: seq<Cond>, answers: seq<bool>, prev: seq<Cond>, next: seq<Cond>, ready: bool,
                                       stores: seq<Store>, s: Store)
    requires Polling(conds, answers, prev, false, stores) && |answers| < |conds| && |prev| == |next|
    requires next == prev[|answers| := next[|answers|]]
    requires Answered(conds[|answers|], stores[|answers|], ready, next[|answers|], s)
    ensures Polling(conds, answers + [ready], next, ready, stores + [s])
  {
    var i := |answers|;
    forall k | 0 <= k < i + 1
      ensures Answered(conds[k], (stores + [s])[k], (answers + [ready])[k], next[k], (stores + [s])[k + 1])
    {
      if k < i {
        assert (answers + [ready])[k] == answers[k];
      }
    }
    assert next[i + 1..] == prev[i..][1..];
  }

  /** Polling that stopped at a True answer or ran out of conditions is `Polled`. */
  lemma {:induction false} PollingDone(conds: seq<Cond>, answers: seq<bool>, next: seq<Cond>, ready: bool, stores: seq<Store>)
    requires Polling(conds, answers, next, ready, stores) && (ready || |answers| == |conds|)
    ensures Polled(conds, answers, next, ready, stores)
    ensures |next| == |conds| && |answers| <= |next| && next[|answers|..] == conds[|answers|..]
    ensures (ready ==> |answers| > 0) && (!ready ==> |answers| == |next|) && (conds == [] ==> !ready)
  {
  }

  /** The tasks whose mailboxes the message waits among `conds` look at. */
  ghost function Watched(conds: seq<Cond>): (r: set<Task>)
    ensures forall k :: 0 <= k < |conds| && conds[k].WaitMsg? ==> conds[k].task in r
  {
    set k | 0 <= k < |conds| && conds[k].WaitMsg? :: conds[k].task
  }

  /** Every answer a message wait among `conds` gave says whether that task's mailbox holds a message. */
  ghost predicate MailAnswered(conds: seq<Cond>, answers: seq<bool>)
    reads Watched(conds)`mailbox
  {
    forall k :: 0 <= k < |answers| && k < |conds| && conds[k].WaitMsg? ==> (answers[k] <==> conds[k].task.mailbox != [])
  }

  /** The tasks whose mailboxes the message waits of every list of `C` look at. */
  ghost function AllWatched(C: seq<seq<Cond>>): (r: set<Task>)
  {
    set j, k | 0 <= j < |C| && 0 <= k < |C[j]| && C[j][k].WaitMsg? :: C[j][k].task
  }

  /** The tasks list `j` of `C` watches are among all the watched ones. */
  lemma {:induction false} WatchedWithin(C: seq<seq<Cond>>, j: nat)
    requires j < |C|
    ensures Watched(C[j]) <= AllWatched(C)
  {
  }

  /**
   * Every answer a message wait among `conds` gave is `M`'s record of whether that task's
   * mailbox holds a message.
   */
  ghost predicate MailIn(conds: seq<Cond>, answers: seq<bool>, M: map<Task, bool>)
  {
    forall k :: 0 <= k < |answers| && k < |conds| && conds[k].WaitMsg? ==> conds[k].task in M && (answers[k] <==> M[conds[k].task])
  }

  /**
   * `True in map(lambda x: next(x), task.ready_conditions)`: polls the conditions in
   * order and stops at the first that answers True; the `polled` answers and the advanced
   * conditions are as `Polled` says, a message wait answering from the mailbox. An empty
   * list never answers True. The objects of `R` start out holding the first of `stores`
   * and end up holding the last.
   */
  method PollConditions(t: Task, ghost R: set<object>) returns (ready: bool, polled: nat, ghost answers: seq<bool>,
                                                                ghost stores: seq<Store>)
    requires t.Valid() && t.Reach() <= R && t !in R
    modifies t`conditions, t.Reach()
    ensures t.Valid()
    ensures |t.conditions| == |old(t.conditions)| && polled <= |t.conditions|
    ensures t.conditions[polled..] == old(t.conditions)[polled..]
    ensures ready ==> polled > 0
    ensures !ready ==> polled == |t.conditions|
    ensures old(t.conditions) == [] ==> !ready
    ensures polled == |answers| && Polled(old(t.conditions), answers, t.conditions, ready, stores)
    ensures stores[0] == old(StoreOf(R)) && stores[|stores| - 1] == StoreOf(R)
    ensures MailAnswered(old(t.conditions), answers)
  {
    ReachHoldsNoTask(t);
    ghost var C0 := t.conditions;
    ready, polled, answers, stores := false, 0, [], [StoreOf(R)];
    while polled < |t.conditions| && !ready
      invariant t.Valid() && t.thread == old(t.thread)
      invariant polled == |answers| && Polling(C0, answers, t.conditions, ready, stores) == true
      invariant stores[0] == old(StoreOf(R)) && stores[|stores| - 1] == StoreOf(R)
      invariant MailAnswered(C0, answers)
    {
      ready, answers, stores := PollNext(t, polled, R, C0, answers, stores);
      polled := polled + 1;
    }
    PollingDone(C0, answers, t.conditions, ready, stores);
  }

  /** One iteration of the polling loop: polls the first condition not yet polled and records the answer. */
  method PollNext(t: Task, k: nat, ghost R: set<object>, ghost C0: seq<Cond>, ghost answers: seq<bool>, ghost stores: seq<Store>)
      returns (ready: bool, ghost answers': seq<bool>, ghost stores': seq<Store>)
    requires t.Valid() && t.Reach() <= R && t !in R && k == |answers| < |t.conditions|
    requires Polling(C0, answers, t.conditions, false, stores) == true
    requires stores[|stores| - 1] == StoreOf(R) && MailAnswered(C0, answers)
    modifies t`conditions, t.Reach()
    ensures t.Valid() && t.thread == old(t.thread)
    ensures answers' == answers + [ready] && Polling(C0, answers', t.conditions, ready, stores') == true
    ensures stores'[0] == stores[0] && stores'[|stores'| - 1] == StoreOf(R)
    ensures MailAnswered(C0, answers')
  {
    ReachHoldsNoTask(t);
    ghost var cs := t.conditions;
    ready := PollAt(t, k, R);
    PollingStep(C0, answers, cs, t.conditions, ready, stores, StoreOf(R));
    answers', stores' := answers + [ready], stores + [StoreOf(R)];
  }

  /**
   * `next()` on the condition at position `k` of `t`, which is advanced in place: it
   * answers, advances and changes what the objects of `R` hold as `Answered` says.
   */
  method PollAt(t: Task, k: nat, ghost R: set<object>) returns (ready: bool)
    requires t.Valid() && k < |t.conditions| && t.Reach() <= R && t !in R
    modifies t`conditions, t.Reach()
    ensures t.Valid() && t.thread == old(t.thread)
    ensures |t.conditions| == |old(t.conditions)| && t.conditions == old(t.conditions)[k := t.conditions[k]]
    ensures Answered(old(t.conditions[k]), old(StoreOf(R)), ready, t.conditions[k], StoreOf(R))
    ensures old(t.conditions[k]).WaitMsg? ==> (ready <==> old(t.conditions[k]).task.mailbox != [])
  {
    ReachHoldsNoTask(t);
    var c := t.conditions[k];
    assert c in t.conditions;
    var next;
    ready, next := PollCond(c, R);
    t.conditions := t.conditions[k := next];
  }

  /** The tasks of a list, as a set. */
  function TaskSet(ts: seq<Task>): (r: set<Task>)
  {
    set t | t in ts
  }

  /** The state of every task of `ts`, in list order. */
  ghost function StatesOf(ts: seq<Task>): (r: seq<State>)
    reads TaskSet(ts)
    ensures |r| == |ts| && forall i :: 0 <= i < |ts| ==> r[i] == ts[i].state
  {
    seq(|ts|, i requires 0 <= i < |ts| reads ts => ts[i].state)
  }

  /** The priority of every task of `ts`, in list order. */
  function PrioritiesOf(ts: seq<Task>): (r: seq<int>)
    ensures |r| == |ts| && forall i :: 0 <= i < |ts| ==> r[i] == ts[i].priority
  {
    seq(|ts|, i requires 0 <= i < |ts| => ts[i].priority)
  }

  ghost predicate Distinct(ts: seq<Task>)
  {
    forall i, j :: 0 <= i < j < |ts| ==> ts[i] != ts[j]
  }

  /** The registry's invariant: no task twice, every task consistent, started, and sharing `outbox`. */
  ghost predicate Registered(ts: seq<Task>, outbox: Outbox)
    reads TaskSet(ts)`state, TaskSet(ts)`conditions, TaskSet(ts)`thread
  {
    Distinct(ts) && forall t | t in ts :: t.Valid() && t.thread.Some? && t.outbox == outbox
  }

  /** In a list without repeats, dropping position `c` leaves a list without repeats whose tasks were all in `ts`. */
  lemma {:induction false} RemoveDistinct(ts: seq<Task>, c: nat)
    requires Distinct(ts) && c < |ts|
    ensures IndexOf(ts, ts[c]) == c
    ensures Distinct(ts[..c] + ts[c + 1..])
    ensures forall u | u in ts[..c] + ts[c + 1..] :: u in ts
  {
    var r := ts[..c] + ts[c + 1..];
    assert forall i :: 0 <= i < |r| ==> r[i] == ts[if i < c then i else i + 1];
  }

  /** Task `u` has the same fields as in the pre-state. */
  twostate predicate Untouched(u: Task)
    reads u
  {
    unchanged(u)
  }

  /**
   * One iteration of the `for task in tasks` loop, on task `ts[i]`: a READY task is taken
   * if nothing is chosen yet; a BLOCKED task is polled and, when woken, becomes READY
   * with no conditions and is taken if nothing is chosen yet; a RUNNING task replaces
   * the choice when its priority is no larger, and is demoted to READY otherwise; a
   * SUSPENDED task is left alone. The effect is one `Visit`; the objects of `R` go from the
   * first store `poll` records to the last.
   */
  method VisitTask(ts: seq<Task>, P: seq<int>, t: Task, i: nat, choice: Option<nat>, ghost after: seq<State>,
                   ghost R: set<object>)
      returns (woke: bool, choice': Option<nat>, ghost poll: Poll)
    requires i < |ts| && ts[i] == t && |after| == i && (choice.Some? ==> choice.value < i) && P == PrioritiesOf(ts)
    requires t.Valid() && t.Reach() <= R && t !in R
    modifies t`state, t`conditions, t.Reach()
    ensures t.Valid()
    ensures Visit(Scan(choice, after), old(t.state), woke, P[i], P[..i]) ==
      Scan(choice', after + [t.state])
    ensures woke ==> old(t.state) == Blocked && old(t.conditions) != [] && t.conditions == []
    ensures !woke ==> |t.conditions| == |old(t.conditions)|
    ensures Visited(old(t.state), old(t.conditions), woke, poll, t.conditions)
    ensures Spans(poll, old(StoreOf(R)), StoreOf(R))
    ensures MailAnswered(old(t.conditions), poll.answers)
    ensures forall u: Task | old(allocated(u)) && u != t :: Untouched(u)
    ensures t.thread == old(t.thread)
  {
    ReachHoldsNoTask(t);
    woke, choice', poll := false, choice, Poll([], t.conditions, [StoreOf(R)]);
    if t.state == Ready {
      if choice.None? {
        choice' := Some(i);
      }
    } else if t.state == Blocked {
      var polled;
      ghost var answers, stores;
      woke, polled, answers, stores := PollConditions(t, R);
      poll := Poll(answers, t.conditions, stores);
      if woke {
        t.state := Ready;
        t.conditions := [];
        if choice.None? {
          choice' := Some(i);
        }
      }
    } else if t.state == Running {
      if choice.None? || P[i] <= P[choice.value] {
        choice' := Some(i);
      } else {
        t.state := Ready;
      }
    }
  }

  /**
   * What the pass saw when polling one task: the answers, the conditions as advanced, and
   * what the shared objects held before each poll and after the last.
   */
  datatype Poll = Poll(answers: seq<bool>, advanced: seq<Cond>, stores: seq<Store>)

  /** The objects went from holding `s0` to holding `s1` while `p` was recorded. */
  ghost predicate Spans(p: Poll, s0: Store, s1: Store)
  {
    |p.stores| > 0 && p.stores[0] == s0 && p.stores[|p.stores| - 1] == s1
  }

  /**
   * The objects went from holding `s0` to holding `s1` over the polls `polls`, one task
   * after another: each poll starts from the store the one before it ended with.
   */
  ghost predicate Chained(polls: seq<Poll>, s0: Store, s1: Store)
    decreases |polls|
  {
    if polls == [] then s0 == s1
    else
      var p := polls[|polls| - 1];
      |p.stores| > 0 && Chained(polls[..|polls| - 1], s0, p.stores[0]) && p.stores[|p.stores| - 1] == s1
  }

  /** One more task's poll extends the chain. */
  lemma {:induction false} ChainedStep(polls: seq<Poll>, p: Poll, s0: Store, s: Store, s1: Store)
    requires Chained(polls, s0, s) && Spans(p, s, s1)
    ensures Chained(polls + [p], s0, s1)
  {
    assert (polls + [p])[..|polls|] == polls;
  }

  /**
   * Visiting a task in state `s` with conditions `conds` woke it (`woke`), recorded `p` and
   * left it `after` conditions: a BLOCKED task was polled as `Polled` says and keeps the
   * advanced conditions, or none when it woke; any other task is not polled, keeps its
   * conditions and changes no object.
   */
  ghost predicate Visited(s: State, conds: seq<Cond>, woke: bool, p: Poll, after: seq<Cond>)
  {
    if s == Blocked then Polled(conds, p.answers, p.advanced, woke, p.stores) && after == (if woke then [] else p.advanced)
    else !woke && p.answers == [] && p.advanced == conds && |p.stores| == 1 && after == conds
  }

  /**
   * A BLOCKED task whose first condition is a delay that has run out (`delay(0)` on its
   * first poll, or any delay once its counter reached 0) wakes on that condition alone.
   */
  lemma {:induction false} ExpiredDelayWakes(conds: seq<Cond>, woke: bool, p: Poll, after: seq<Cond>)
    requires Visited(Blocked, conds, woke, p, after)
    requires conds != [] && conds[0].Delay? && conds[0].ttl <= 0
    ensures woke && p.answers == [true] && after == []
    ensures p.stores == [p.stores[0], p.stores[0]]
  {
    FirstPoll(conds, woke, p, after);
  }

  /**
   * A BLOCKED task whose conditions were polled answered at least once; the first poll
   * went from the first store to the second as `Answered` says.
   */
  lemma {:induction false} FirstPoll(conds: seq<Cond>, woke: bool, p: Poll, after: seq<Cond>)
    requires Visited(Blocked, conds, woke, p, after) && conds != []
    ensures |p.answers| > 0 && |p.stores| > 1 && |p.advanced| == |conds|
    ensures Answered(conds[0], p.stores[0], p.answers[0], p.advanced[0], p.stores[1])
    ensures p.answers[0] ==> woke && p.answers == [true] && |p.stores| == 2 && after == []
  {
  }

  /** A task BLOCKED on one delay with `n > 0` cycles left stays BLOCKED, counting down to `n - 1`, changing no object. */
  lemma {:induction false} PendingDelayCountsDown(n: int, woke: bool, p: Poll, after: seq<Cond>)
    requires Visited(Blocked, [Delay(n)], woke, p, after) && n > 0
    ensures !woke && p.answers == [false] && after == [Delay(n - 1)]
    ensures p.stores == [p.stores[0], p.stores[0]]
  {
    FirstPoll([Delay(n)], woke, p, after);
  }

  /**
   * A BLOCKED task whose first condition is `mutex.lock()` on a mutex that is free (or
   * whose latch is already set) wakes on that condition alone, and the mutex is then held.
   */
  lemma {:induction false} FreeLockWakes(conds: seq<Cond>, woke: bool, p: Poll, after: seq<Cond>)
    requires Visited(Blocked, conds, woke, p, after)
    requires conds != [] && conds[0].MutexLock? && |p.stores| > 0 && conds[0].mutex in p.stores[0].locks
    requires conds[0].hasLock || !p.stores[0].locks[conds[0].mutex]
    ensures woke && p.answers == [true] && after == []
    ensures !conds[0].hasLock ==> p.stores == [p.stores[0], p.stores[0].(locks := p.stores[0].locks[conds[0].mutex := true])]
    ensures conds[0].hasLock ==> p.stores == [p.stores[0], p.stores[0]]
  {
    FirstPoll(conds, woke, p, after);
    var s := p.stores[0];
    assert s.locks[conds[0].mutex := s.locks[conds[0].mutex]] == s.locks;
  }

  /**
   * A task BLOCKED on `mutex.lock()` alone, not yet holding it, on a mutex that is held,
   * stays BLOCKED with the latch unset and changes no object.
   */
  lemma {:induction false} HeldLockBlocks(m: Locks.Mutex, woke: bool, p: Poll, after: seq<Cond>)
    requires Visited(Blocked, [MutexLock(m, false)], woke, p, after)
    requires |p.stores| > 0 && m in p.stores[0].locks && p.stores[0].locks[m]
    ensures !woke && p.answers == [false] && after == [MutexLock(m, false)]
    ensures p.stores == [p.stores[0], p.stores[0]]
  {
    FirstPoll([MutexLock(m, false)], woke, p, after);
    assert p.stores[0].locks[m := true] == p.stores[0].locks;
  }

  /**
   * A BLOCKED task whose first condition is `queue.recv(out)` on a non-empty queue wakes on
   * that condition alone, taking the oldest item from the queue into `out`.
   */
  lemma {:induction false} RecvWakes(conds: seq<Cond>, woke: bool, p: Poll, after: seq<Cond>)
    requires Visited(Blocked, conds, woke, p, after)
    requires conds != [] && conds[0].QRecv? && !conds[0].received
    requires |p.stores| > 0 && conds[0].queue in p.stores[0].queues && p.stores[0].queues[conds[0].queue] != []
    ensures woke && p.answers == [true] && after == []
    ensures var s, q, out := p.stores[0], conds[0].queue, conds[0].out;
      out in s.outs &&
      p.stores == [s, s.(queues := s.queues[q := s.queues[q][1..]], outs := s.outs[out := s.outs[out] + [s.queues[q][0]]])]
  {
    FirstPoll(conds, woke, p, after);
  }

  /**
   * A BLOCKED task whose first condition waits for a message to a task whose mailbox holds
   * one wakes on that condition alone.
   */
  lemma {:induction false} MessageWakes(conds: seq<Cond>, woke: bool, p: Poll, after: seq<Cond>)
    requires Visited(Blocked, conds, woke, p, after) && MailAnswered(conds, p.answers)
    requires conds != [] && conds[0].WaitMsg? && conds[0].task.mailbox != []
    ensures woke && p.answers == [true] && after == []
  {
  }

  /** The pending conditions of every task of `ts`, in list order. */
  ghost function ConditionsOf(ts: seq<Task>): (r: seq<seq<Cond>>)
    reads TaskSet(ts)
    ensures |r| == |ts| && forall i :: 0 <= i < |ts| ==> r[i] == ts[i].conditions
  {
    seq(|ts|, i requires 0 <= i < |ts| reads ts => ts[i].conditions)
  }

  /** The generator of every task of `ts`, in list order. */
  ghost function ThreadsOf(ts: seq<Task>): (r: seq<Option<Thread>>)
    reads TaskSet(ts)
    ensures |r| == |ts| && forall i :: 0 <= i < |ts| ==> r[i] == ts[i].thread
  {
    seq(|ts|, i requires 0 <= i < |ts| reads ts => ts[i].thread)
  }

  /**
   * The conditions `C2` the pass leaves, given the states `S` and conditions `C` it
   * started from: every task was visited as `Visited` says, woke as `woke` records and was
   * seen as `polls` records.
   */
  ghost predicate Woken(S: seq<State>, C: seq<seq<Cond>>, woke: seq<bool>, polls: seq<Poll>, C2: seq<seq<Cond>>)
  {
    |S| == |C| == |woke| == |polls| == |C2| &&
    forall j {:trigger Visited(S[j], C[j], woke[j], polls[j], C2[j])} :: 0 <= j < |woke| ==> Visited(S[j], C[j], woke[j], polls[j], C2[j])
  }

  /**
   * The progress of the pass after visiting the first `i` tasks, whose states, conditions
   * and priorities were `S`, `C` and `P` when the pass began and are `St` and `Ct` now:
   * `scan` is `ScanAll` of what was seen, visited tasks are in the state it gives and were
   * visited as `Visited` says, and unvisited tasks are untouched.
   */
  ghost predicate Progress(S: seq<State>, C: seq<seq<Cond>>, P: seq<int>, woke: seq<bool>, polls: seq<Poll>, scan: Scan,
                           i: nat, St: seq<State>, Ct: seq<seq<Cond>>)
  {
    |S| == |C| == |P| == |St| == |Ct| && i <= |S| && |woke| == |polls| == i &&
    scan == ScanAll(S[..i], woke, P[..i]) &&
    St[..i] == scan.after && St[i..] == S[i..] && Ct[i..] == C[i..] &&
    (forall j :: 0 <= j < i ==> Visited(S[j], C[j], woke[j], polls[j], Ct[j]))
  }

  /** Visiting task `i` advances the progress by one task. */
  lemma {:induction false} ProgressStep(S: seq<State>, C: seq<seq<Cond>>, P: seq<int>, woke: seq<bool>, polls: seq<Poll>,
                     scan: Scan, i: nat, St: seq<State>, Ct: seq<seq<Cond>>, w: bool, p: Poll, st: State, ct: seq<Cond>)
    requires Progress(S, C, P, woke, polls, scan, i, St, Ct) && i < |S|
    requires Visit(scan, S[i], w, P[i], P[..i]).after == scan.after + [st]
    requires Visited(S[i], C[i], w, p, ct)
    ensures Progress(S, C, P, woke + [w], polls + [p], Visit(scan, S[i], w, P[i], P[..i]), i + 1, St[i := st], Ct[i := ct])
  {
    ScanExtend(S, woke, P, i, w);
    var St', Ct' := St[i := st], Ct[i := ct];
    assert St'[..i + 1] == St[..i] + [st];
    assert St'[i + 1..] == St[i + 1..] && S[i + 1..] == S[i..][1..];
    assert Ct'[i + 1..] == Ct[i + 1..] && C[i + 1..] == C[i..][1..];
    forall j | 0 <= j < i
      ensures Ct'[j] == Ct[j]
    {
    }
  }

  /**
   * The invariant of the pass: the registry stays consistent, no generator changes, the
   * conditions of every task change only objects of `R`, and the pass has made `Progress`.
   */
  ghost predicate PassInv(ts: seq<Task>, outbox: Outbox, R: set<object>, T: seq<Option<Thread>>,
                          S: seq<State>, C: seq<seq<Cond>>, P: seq<int>, woke: seq<bool>, polls: seq<Poll>, scan: Scan,
                          i: nat)
    reads TaskSet(ts)
  {
    Registered(ts, outbox) && ThreadsOf(ts) == T && (forall t | t in ts :: t.Reach() <= R && t !in R) &&
    P == PrioritiesOf(ts) && Progress(S, C, P, woke, polls, scan, i, StatesOf(ts), ConditionsOf(ts))
  }

  /** One iteration of the pass, on task `ts[i]`, keeps the pass invariant. */
  method Advance(ts: seq<Task>, ghost outbox: Outbox, ghost R: set<object>, ghost T: seq<Option<Thread>>,
                 ghost S: seq<State>, ghost C: seq<seq<Cond>>, P: seq<int>,
                 ghost woke: seq<bool>, ghost polls: seq<Poll>, ghost scan: Scan, ghost M: map<Task, bool>, i: nat,
                 choice: Option<nat>, ghost s0: Store)
      returns (w: bool, choice': Option<nat>, ghost p: Poll)
    requires i < |ts| && PassInv(ts, outbox, R, T, S, C, P, woke, polls, scan, i) == true && choice == scan.choice
    requires Watched(C[i]) <= M.Keys && forall u | u in M :: M[u] == (u.mailbox != [])
    requires Chained(polls, s0, StoreOf(R))
    modifies {ts[i]}`state, {ts[i]}`conditions, ts[i].Reach()
    ensures PassInv(ts, outbox, R, T, S, C, P, woke + [w], polls + [p], Visit(scan, S[i], w, P[i], P[..i]), i + 1)
    ensures choice' == Visit(scan, S[i], w, P[i], P[..i]).choice
    ensures MailIn(C[i], p.answers, M) && forall u | u in M :: M[u] == (u.mailbox != [])
    ensures Chained(polls + [p], s0, StoreOf(R))
  {
    var t := ts[i];
    assert t in ts;
    ghost var St, Ct := StatesOf(ts), ConditionsOf(ts);
    assert St[i..][0] == S[i..][0] && Ct[i..][0] == C[i..][0];
    w, choice', p := VisitAt(ts, outbox, R, P, i, choice, scan.after);
    ProgressStep(S, C, P, woke, polls, scan, i, St, Ct, w, p, t.state, t.conditions);
    ChainedStep(polls, p, s0, old(StoreOf(R)), StoreOf(R));
  }

  /** `VisitTask` on `ts[i]`, stated on the whole registry: only position `i` changes, and no mailbox. */
  method VisitAt(ts: seq<Task>, ghost outbox: Outbox, ghost R: set<object>, P: seq<int>, i: nat,
                 choice: Option<nat>, ghost after: seq<State>)
      returns (woke: bool, choice': Option<nat>, ghost poll: Poll)
    requires i < |ts| && |after| == i && (choice.Some? ==> choice.value < i) && P == PrioritiesOf(ts)
    requires Registered(ts, outbox) && forall t | t in ts :: t.Reach() <= R && t !in R
    modifies {ts[i]}`state, {ts[i]}`conditions, ts[i].Reach()
    ensures Registered(ts, outbox) && ThreadsOf(ts) == old(ThreadsOf(ts))
    ensures StatesOf(ts) == old(StatesOf(ts))[i := ts[i].state]
    ensures ConditionsOf(ts) == old(ConditionsOf(ts))[i := ts[i].conditions]
    ensures Visit(Scan(choice, after), old(ts[i].state), woke, P[i], P[..i]) == Scan(choice', after + [ts[i].state])
    ensures Visited(old(ts[i].state), old(ts[i].conditions), woke, poll, ts[i].conditions)
    ensures Spans(poll, old(StoreOf(R)), StoreOf(R))
    ensures MailAnswered(old(ts[i].conditions), poll.answers)
    ensures forall u: Task | old(allocated(u)) :: u.mailbox == old(u.mailbox)
  {
    var t := ts[i];
    assert t in ts;
    ghost var St, Ct := StatesOf(ts), ConditionsOf(ts);
    woke, choice', poll := VisitTask(ts, P, t, i, choice, after, R);
    assert StatesOf(ts) == St[i := t.state] && ConditionsOf(ts) == Ct[i := t.conditions] && ThreadsOf(ts) == old(ThreadsOf(ts)) by {
      forall j | 0 <= j < |ts| && j != i
        ensures unchanged(ts[j])
      {
        assert ts[j] != t && Untouched(ts[j]);
      }
    }
    ReachHoldsNoTask(t);
    forall u | u in ts
      ensures u.Valid() && u.thread.Some? && u.outbox == outbox
    {
      if u != t {
        assert Untouched(u);
      }
    }
    forall u: Task | old(allocated(u))
      ensures u.mailbox == old(u.mailbox)
    {
      if u != t {
        assert Untouched(u);
      }
    }
  }

  /** When every task has been visited, the pass invariant gives the outcome of the pass. */
  lemma {:induction false} PassDone(ts: seq<Task>, outbox: Outbox, R: set<object>, T: seq<Option<Thread>>,
                                    S: seq<State>, C: seq<seq<Cond>>, P: seq<int>, woke: seq<bool>, polls: seq<Poll>,
                                    scan: Scan)
    requires PassInv(ts, outbox, R, T, S, C, P, woke, polls, scan, |ts|)
    ensures Registered(ts, outbox) && ThreadsOf(ts) == T && |woke| == |ts|
    ensures var r := ScanAll(S, woke, P); scan.choice == r.choice && StatesOf(ts) == r.after
    ensures Woken(S, C, woke, polls, ConditionsOf(ts))
  {
    assert S[..|ts|] == S && P[..|ts|] == P;
    assert StatesOf(ts)[..|ts|] == StatesOf(ts);
  }

  /**
   * The `for task in tasks` pass of `default_scheduler`: polls every BLOCKED task, waking
   * it to READY with no conditions when some condition answers True, and chooses exactly
   * as `ScanAll` does on the states the tasks had at the start, which of them woke
   * (`woke`), and the priorities; what each task's conditions answered is recorded in
   * `polls`, as `Woken` says. Only states, conditions and the objects the conditions may
   * change are touched, and those objects change as the polls record, one task after
   * another (`Chained`).
   */
  method Pass(ts: seq<Task>, ghost outbox: Outbox, ghost R: set<object>) returns (ghost woke: seq<bool>, ghost polls: seq<Poll>,
                                                                               choice: Option<nat>)
    requires Registered(ts, outbox) && forall t | t in ts :: t.Reach() <= R && t !in R
    modifies TaskSet(ts)`state, TaskSet(ts)`conditions, R
    ensures Registered(ts, outbox) && ThreadsOf(ts) == old(ThreadsOf(ts))
    ensures |woke| == |ts|
    ensures var r := ScanAll(old(StatesOf(ts)), woke, PrioritiesOf(ts));
      choice == r.choice && StatesOf(ts) == r.after
    ensures Woken(old(StatesOf(ts)), old(ConditionsOf(ts)), woke, polls, ConditionsOf(ts))
    ensures forall j :: 0 <= j < |ts| ==> MailAnswered(old(ConditionsOf(ts))[j], polls[j].answers)
    ensures Chained(polls, old(StoreOf(R)), StoreOf(R))
  {
    ghost var S, C, T := StatesOf(ts), ConditionsOf(ts), ThreadsOf(ts);
    ghost var s0 := StoreOf(R);
    ghost var M := map u | u in AllWatched(C) :: u.mailbox != [];
    var P := PrioritiesOf(ts);
    ghost var scan := Scan(None, []);
    woke, polls := [], [];
    choice := None;
    var i := 0;
    while i < |ts|
      invariant PassInv(ts, outbox, R, T, S, C, P, woke, polls, scan, i) == true && choice == scan.choice
      invariant forall j :: 0 <= j < i ==> MailIn(C[j], polls[j].answers, M)
      invariant forall u | u in M :: M[u] == (u.mailbox != [])
      invariant Chained(polls, s0, StoreOf(R))
      decreases |ts| - i
    {
      var w;
      ghost var p;
      WatchedWithin(C, i);
      w, choice, p := Advance(ts, outbox, R, T, S, C, P, woke, polls, scan, M, i, choice, s0);
      MailInStep(C, polls, p, M, i);
      ghost var next := Visit(scan, S[i], w, P[i], P[..i]);
      assert choice == next.choice;
      scan := next;
      woke, polls := woke + [w], polls + [p];
      i := i + 1;
    }
    PassDone(ts, outbox, R, T, S, C, P, woke, polls, scan);
    MailRecorded(C, polls, M);
  }

  /** Recording one more poll against `M` extends the record of the earlier ones. */
  lemma {:induction false} MailInStep(C: seq<seq<Cond>>, polls: seq<Poll>, p: Poll, M: map<Task, bool>, i: nat)
    requires |polls| == i < |C| && MailIn(C[i], p.answers, M)
    requires forall j :: 0 <= j < i ==> MailIn(C[j], polls[j].answers, M)
    ensures forall j :: 0 <= j < i + 1 ==> MailIn(C[j], (polls + [p])[j].answers, M)
  {
    forall j | 0 <= j < i + 1
      ensures MailIn(C[j], (polls + [p])[j].answers, M)
    {
      if j < i {
        assert (polls + [p])[j] == polls[j];
      }
    }
  }

  /** While the mailboxes are as `M` records them, answers recorded against `M` are answers from the mailboxes. */
  lemma {:induction false} MailRecorded(C: seq<seq<Cond>>, polls: seq<Poll>, M: map<Task, bool>)
    requires |polls| == |C| && forall j :: 0 <= j < |C| ==> MailIn(C[j], polls[j].answers, M)
    requires forall u | u in M :: M[u] == (u.mailbox != [])
    ensures forall j :: 0 <= j < |C| ==> MailAnswered(C[j], polls[j].answers)
  {
  }

  /**
   * When the pass finds a BLOCKED task whose first condition is an expired delay, the task
   * wakes and the pass chooses some task; when it is the only task, it is the one chosen.
   */
  lemma {:induction false} ExpiredDelayScheduled(S: seq<State>, C: seq<seq<Cond>>, woke: seq<bool>, polls: seq<Poll>,
                                                 C2: seq<seq<Cond>>, P: seq<int>, i: nat)
    requires Woken(S, C, woke, polls, C2) && |P| == |S| && i < |S|
    requires S[i] == Blocked && C[i] != [] && C[i][0].Delay? && C[i][0].ttl <= 0
    ensures woke[i] && C2[i] == []
    ensures ScanAll(S, woke, P).choice.Some?
    ensures |S| == 1 ==> ScanAll(S, woke, P).choice == Some(0)
  {
    ExpiredDelayWakes(C[i], woke[i], polls[i], C2[i]);
    ScanChoosesWhenPossible(S, woke, P);
    ScanChoiceRunnable(S, woke, P);
  }

  /** Over a single visit the chain runs from the first store the visit recorded to its last. */
  lemma {:induction false} ChainedOne(polls: seq<Poll>, s0: Store, s1: Store)
    requires |polls| == 1 && Chained(polls, s0, s1)
    ensures Spans(polls[0], s0, s1)
  {
    assert polls[..0] == [];
  }

  /**
   * A lone task BLOCKED on `mutex.lock()` (first in its list, latch unset) over a free
   * mutex is woken and chosen by the pass, and the pass leaves the mutex locked and every
   * other object as it was.
   */
  lemma {:induction false} FreeLockScheduled(S: seq<State>, C: seq<seq<Cond>>, woke: seq<bool>, polls: seq<Poll>,
                                             C2: seq<seq<Cond>>, P: seq<int>, s0: Store, s1: Store, m: Locks.Mutex)
    requires Woken(S, C, woke, polls, C2) && Chained(polls, s0, s1) && |S| == |P| == 1
    requires S[0] == Blocked && C[0] != [] && C[0][0] == MutexLock(m, false) && m in s0.locks && !s0.locks[m]
    ensures woke[0] && C2[0] == [] && ScanAll(S, woke, P).choice == Some(0)
    ensures s1 == s0.(locks := s0.locks[m := true])
  {
    assert Visited(S[0], C[0], woke[0], polls[0], C2[0]);
    ChainedOne(polls, s0, s1);
    FreeLockWakes(C[0], woke[0], polls[0], C2[0]);
    ScanChoosesWhenPossible(S, woke, P);
    ScanChoiceRunnable(S, woke, P);
  }

  /**
   * A lone task BLOCKED on an expired delay followed by other conditions is woken and
   * chosen, and the pass changes no object: the later conditions (a `lock()`, say) are
   * not polled.
   */
  lemma {:induction false} ExpiredDelayShortCircuits(S: seq<State>, C: seq<seq<Cond>>, woke: seq<bool>, polls: seq<Poll>,
                                                     C2: seq<seq<Cond>>, P: seq<int>, s0: Store, s1: Store)
    requires Woken(S, C, woke, polls, C2) && Chained(polls, s0, s1) && |S| == |P| == 1
    requires S[0] == Blocked && C[0] != [] && C[0][0].Delay? && C[0][0].ttl <= 0
    ensures woke[0] && C2[0] == [] && ScanAll(S, woke, P).choice == Some(0)
    ensures s1 == s0
  {
    assert Visited(S[0], C[0], woke[0], polls[0], C2[0]);
    ChainedOne(polls, s0, s1);
    ExpiredDelayWakes(C[0], woke[0], polls[0], C2[0]);
    ScanChoosesWhenPossible(S, woke, P);
    ScanChoiceRunnable(S, woke, P);
  }

  /** Visits that polled nothing (one store each) leave the objects as they were. */
  lemma {:induction false} UnpolledChain(polls: seq<Poll>, s0: Store, s1: Store)
    requires Chained(polls, s0, s1) && forall j :: 0 <= j < |polls| ==> |polls[j].stores| == 1
    ensures s1 == s0
    decreases |polls|
  {
    if polls != [] {
      var n := |polls| - 1;
      forall j | 0 <= j < n
        ensures |polls[..n][j].stores| == 1
      {
        assert polls[..n][j] == polls[j];
      }
      UnpolledChain(polls[..n], s0, polls[n].stores[0]);
    }
  }

  /**
   * A pass over a registry with no BLOCKED task wakes nothing, leaves every task's
   * conditions as they were and changes no object.
   */
  lemma {:induction false} NothingBlockedKeepsStore(S: seq<State>, C: seq<seq<Cond>>, woke: seq<bool>, polls: seq<Poll>,
                                                    C2: seq<seq<Cond>>, s0: Store, s1: Store)
    requires Woken(S, C, woke, polls, C2) && Chained(polls, s0, s1)
    requires forall j :: 0 <= j < |S| ==> S[j] != Blocked
    ensures s1 == s0
    ensures forall j :: 0 <= j < |woke| ==> !woke[j] && C2[j] == C[j]
  {
    forall j | 0 <= j < |polls|
      ensures |polls[j].stores| == 1 && !woke[j] && C2[j] == C[j]
    {
      assert Visited(S[j], C[j], woke[j], polls[j], C2[j]);
    }
    UnpolledChain(polls, s0, s1);
  }

  /** The objects conditions may change are arrays, mutexes, queues and buffers, never tasks. */
  lemma {:induction false} ReachHoldsNoTask(t: Task)
    ensures forall u: Task :: u !in t.Reach()
  {
  }

  /** The pass over one more task is one more `Visit`. */
  lemma {:induction false} ScanExtend(states: seq<State>, woke: seq<bool>, prios: seq<int>, i: nat, w: bool)
    requires i < |states| == |prios| && |woke| == i
    ensures ScanAll(states[..i + 1], woke + [w], prios[..i + 1]) ==
      Visit(ScanAll(states[..i], woke, prios[..i]), states[i], w, prios[i], prios[..i])
  {
    assert states[..i + 1][..i] == states[..i] && prios[..i + 1][..i] == prios[..i] && (woke + [w])[..i] == woke;
  }

  /**
   * `R` holds every object the registered tasks' conditions may change, and none of the
   * kernel's own: no task, not the registry, not the outbox.
   */
  ghost predicate Confined(tasks: TaskList, outbox: Outbox, R: set<object>)
    reads tasks
  {
    tasks !in R && outbox !in R &&
    forall t | t in tasks.items :: t !in R && t.Reach() <= R
  }

  /**
   * What a scheduler call left the registry holding, on values. From the states `S`, the
   * generators `T` and the priorities `P` at entry, the pass's wake-ups `woke` and the
   * conditions `cleared` the pass left, the call chose `ScanAll`'s task; every task's
   * state, conditions and generator (`St`, `Ct`, `Tt`, in list order) are `ScanAll`'s
   * state, `cleared`'s conditions and `T`'s generator, except the chosen task's, which only
   * its step changed.
   */
  ghost predicate LeftByCall(S: seq<State>, woke: seq<bool>, P: seq<int>, cleared: seq<seq<Cond>>, T: seq<Option<Thread>>,
                             St: seq<State>, Ct: seq<seq<Cond>>, Tt: seq<Option<Thread>>, choice: Option<nat>)
  {
    |S| == |woke| == |P| == |cleared| == |T| == |St| == |Ct| == |Tt| &&
    var r := ScanAll(S, woke, P);
    choice == r.choice &&
    (choice.None? ==> St == r.after && Ct == cleared && Tt == T) &&
    (choice.Some? ==>
      var c := choice.value;
      St == r.after[c := St[c]] && Ct == cleared[c := Ct[c]] && Tt == T[c := Tt[c]])
  }

  /**
   * Across a whole scheduler call, a task BLOCKED on one delay with `n > 0` cycles left is
   * not chosen and is left BLOCKED, counting down to `n - 1`, with its generator untouched.
   */
  lemma {:induction false} PendingDelayLeftBlocked(S: seq<State>, C: seq<seq<Cond>>, woke: seq<bool>, polls: seq<Poll>,
                                                   cleared: seq<seq<Cond>>, P: seq<int>, T: seq<Option<Thread>>,
                                                   St: seq<State>, Ct: seq<seq<Cond>>, Tt: seq<Option<Thread>>,
                                                   choice: Option<nat>, j: nat, n: int)
    requires Woken(S, C, woke, polls, cleared)
    requires LeftByCall(S, woke, P, cleared, T, St, Ct, Tt, choice)
    requires j < |S| && S[j] == Blocked && C[j] == [Delay(n)] && n > 0
    ensures choice != Some(j)
    ensures St[j] == Blocked && Ct[j] == [Delay(n - 1)] && Tt[j] == T[j]
  {
    assert Visited(S[j], C[j], woke[j], polls[j], cleared[j]);
    PendingDelayCountsDown(n, woke[j], polls[j], cleared[j]);
    ScanChoiceRunnable(S, woke, P);
    ScanLeavesStates(S, woke, P);
  }

  /**
   * `default_scheduler(tasks)`: the pass over the registry `before`, then at most one step.
   *
   * The choice and the states every other task is left in are those of `ScanAll` on the
   * states at entry, the wake-ups `woke` and the priorities; a woken task was BLOCKED
   * on some condition and now has none. The chosen task is set RUNNING and resumed once:
   * when its body returns it is removed from the registry, nothing is returned and the
   * outbox keeps what the step sent; otherwise the drained outbox is returned. With no
   * choice nothing runs and nothing is returned. Mailboxes are never touched. The objects
   * of `R` change only as the polls record (`Chained`); running the chosen task changes none.
   */
  method DefaultScheduler(tasks: TaskList, outbox: Outbox, ghost R: set<object>)
      returns (messages: seq<Msg>, ghost before: seq<Task>, ghost woke: seq<bool>, ghost polls: seq<Poll>,
               ghost cleared: seq<seq<Cond>>, choice: Option<nat>)
    requires Registered(tasks.items, outbox) && Confined(tasks, outbox, R)
    modifies tasks, outbox, TaskSet(tasks.items)`state, TaskSet(tasks.items)`conditions, TaskSet(tasks.items)`thread, R
    ensures before == old(tasks.items) && |woke| == |before|
    ensures Registered(tasks.items, outbox)
    ensures Woken(old(StatesOf(tasks.items)), old(ConditionsOf(tasks.items)), woke, polls, cleared)
    ensures forall j :: 0 <= j < |before| ==> MailAnswered(old(ConditionsOf(tasks.items))[j], polls[j].answers)
    ensures Chained(polls, old(StoreOf(R)), StoreOf(R))
    ensures LeftByCall(old(StatesOf(tasks.items)), woke, PrioritiesOf(before), cleared, old(ThreadsOf(tasks.items)),
                       StatesOf(before), ConditionsOf(before), ThreadsOf(before), choice)
    ensures choice.None? ==> messages == [] && tasks.items == before && outbox.items == old(outbox.items)
    ensures choice.Some? ==>
      var c := choice.value;
      Stepped(old(before[c].thread), before[c].state, before[c].conditions, before[c].thread, c, before, tasks.items,
              old(outbox.items), messages, outbox.items)
  {
    var ts := tasks.items;
    before := ts;
    woke, polls, choice := Pass(ts, outbox, R);
    cleared := ConditionsOf(ts);
    messages := RunIfChosen(tasks, ts, outbox, old(StatesOf(tasks.items)), woke, choice);
  }

  /**
   * The tail of `default_scheduler` after the pass: when the pass `ScanAll(S, woke, ...)`
   * chose a task, it is run as `RunChosen` does; otherwise nothing changes and nothing is
   * returned.
   */
  method RunIfChosen(tasks: TaskList, ts: seq<Task>, outbox: Outbox, ghost S: seq<State>, ghost woke: seq<bool>,
                     choice: Option<nat>) returns (messages: seq<Msg>)
    requires tasks.items == ts && Registered(ts, outbox) && |S| == |woke| == |ts|
    requires choice == ScanAll(S, woke, PrioritiesOf(ts)).choice && StatesOf(ts) == ScanAll(S, woke, PrioritiesOf(ts)).after
    modifies tasks, outbox, TaskSet(ts)`state, TaskSet(ts)`conditions, TaskSet(ts)`thread
    ensures Registered(tasks.items, outbox)
    ensures choice.None? ==>
      (messages == [] && tasks.items == ts && outbox.items == old(outbox.items) &&
       StatesOf(ts) == old(StatesOf(ts)) && ConditionsOf(ts) == old(ConditionsOf(ts)) && ThreadsOf(ts) == old(ThreadsOf(ts)))
    ensures choice.Some? ==>
      var c := choice.value;
      c < |ts| &&
      Stepped(old(ts[c].thread), ts[c].state, ts[c].conditions, ts[c].thread, c, ts, tasks.items, old(outbox.items),
              messages, outbox.items) &&
      StatesOf(ts) == old(StatesOf(ts))[c := ts[c].state] &&
      ConditionsOf(ts) == old(ConditionsOf(ts))[c := ts[c].conditions] &&
      ThreadsOf(ts) == old(ThreadsOf(ts))[c := ts[c].thread]
  {
    messages := [];
    if choice.Some? {
      var c := choice.value;
      ScanChoiceRunnable(S, woke, PrioritiesOf(ts));
      messages := RunChosen(tasks, ts, outbox, c);
    }
  }

  /**
   * The chosen task `ts[c]` is set RUNNING and resumed once; no other task changes, and
   * the registry stays consistent.
   */
  method StepChosen(ts: seq<Task>, outbox: Outbox, c: nat) returns (ended: bool, msgs: seq<Msg>)
    requires Registered(ts, outbox) && c < |ts| && ts[c].state != Blocked
    modifies outbox, {ts[c]}`state, {ts[c]}`conditions, {ts[c]}`thread
    ensures Registered(ts, outbox)
    ensures ended == NextStep(old(ts[c].thread.value)).outcome.Return?
    ensures Stepped(old(ts[c].thread), ts[c].state, ts[c].conditions, ts[c].thread, c, ts,
                    if ended then ts[..c] + ts[c + 1..] else ts, old(outbox.items), msgs, outbox.items)
    ensures StatesOf(ts) == old(StatesOf(ts))[c := ts[c].state]
    ensures ConditionsOf(ts) == old(ConditionsOf(ts))[c := ts[c].conditions]
    ensures ThreadsOf(ts) == old(ThreadsOf(ts))[c := ts[c].thread]
  {
    var t := ts[c];
    assert t in ts;
    t.state := Running;
    ended, msgs := t.RunNext();
    if ended {
      msgs := [];
    }
    forall j | 0 <= j < |ts| && j != c
      ensures unchanged(ts[j])
    {
      assert ts[j] != t;
    }
    forall u | u in ts
      ensures u.Valid() && u.thread.Some? && u.outbox == outbox
    {
      if u != t {
        var j :| 0 <= j < |ts| && ts[j] == u;
        assert unchanged(ts[j]);
      }
    }
  }

  /** Dropping position `c` keeps the registry consistent, and `c` is where `tasks.remove` removes. */
  lemma {:induction false} RemoveRegistered(ts: seq<Task>, outbox: Outbox, c: nat)
    requires Registered(ts, outbox) && c < |ts|
    ensures IndexOf(ts, ts[c]) == c
    ensures Registered(ts[..c] + ts[c + 1..], outbox)
  {
    RemoveDistinct(ts, c);
  }

  /**
   * What resuming the task at position `c` of the registry `before` once from generator
   * `th` did, when the outbox held `sent`, given the state, conditions and generator the
   * task has afterwards: the generator advanced one step; when the body returned, the task
   * left the registry (`items`), nothing was returned and the outbox kept the step's
   * messages; otherwise the drained outbox was returned (`messages`) and the registry is
   * unchanged. A yielded list blocks the task on exactly those conditions; otherwise it is
   * RUNNING with none.
   */
  ghost predicate Stepped(th: Option<Thread>, state: State, conds: seq<Cond>, thread: Option<Thread>, c: nat,
                          before: seq<Task>, items: seq<Task>, sent: seq<Msg>, messages: seq<Msg>, outbox: seq<Msg>)
  {
    th.Some? && c < |before| &&
    var step := NextStep(th.value);
    thread == Some(Resumed(th.value)) &&
    (step.outcome.Return? ==> messages == [] && items == before[..c] + before[c + 1..] && outbox == sent + step.sends) &&
    (!step.outcome.Return? ==> messages == sent + step.sends && outbox == [] && items == before) &&
    (step.outcome.Block? ==> state == Blocked && conds == step.outcome.conds) &&
    (!step.outcome.Block? ==> state == Running && conds == [])
  }

  /**
   * The tail of `default_scheduler`: the chosen task `tasks.items[c]` is set RUNNING and
   * resumed once; when its body returns it is removed with `tasks.remove` and nothing is
   * returned, otherwise the messages drained from the outbox are returned.
   */
  method RunChosen(tasks: TaskList, ts: seq<Task>, outbox: Outbox, c: nat) returns (messages: seq<Msg>)
    requires tasks.items == ts && Registered(ts, outbox) && c < |ts| && ts[c].state != Blocked
    modifies tasks, outbox, {ts[c]}`state, {ts[c]}`conditions, {ts[c]}`thread
    ensures Registered(tasks.items, outbox)
    ensures Stepped(old(ts[c].thread), ts[c].state, ts[c].conditions, ts[c].thread, c, ts, tasks.items,
                    old(outbox.items), messages, outbox.items)
    ensures StatesOf(ts) == old(StatesOf(ts))[c := ts[c].state]
    ensures ConditionsOf(ts) == old(ConditionsOf(ts))[c := ts[c].conditions]
    ensures ThreadsOf(ts) == old(ThreadsOf(ts))[c := ts[c].thread]
  {
    var ended;
    ended, messages := StepChosen(ts, outbox, c);
    if ended {
      Retire(tasks, ts, outbox, c);
    }
  }

  /** Drops the task at position `c` from the registry, which stays consistent. */
  method Retire(tasks: TaskList, ts: seq<Task>, outbox: Outbox, c: nat)
    requires tasks.items == ts && Registered(ts, outbox) && c < |ts|
    modifies tasks
    ensures tasks.items == ts[..c] + ts[c + 1..] && Registered(tasks.items, outbox)
  {
    RemoveRegistered(ts, outbox, c);
    tasks.Remove(ts[c]);
  }
}
