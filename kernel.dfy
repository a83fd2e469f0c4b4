/**
 * The pyRTOS kernel: the task registry that `add_task` keeps sorted by priority, and the
 * `start` loop that alternates `default_scheduler` and `deliver_messages`.
 */
module Kernel {
  import opened Wrappers
  import opened Messages
  import opened Tasks
  import opened Scheduler
  import opened Delivery

  /** Places `t` after every task of `ts` from the end whose priority number is larger. */
  function Insert(ts: seq<Task>, t: Task): (r: seq<Task>)
    ensures |r| == |ts| + 1
  {
    if ts == [] || ts[|ts| - 1].priority <= t.priority then ts + [t]
    else Insert(ts[..|ts| - 1], t) + [ts[|ts| - 1]]
  }

  /**
   * `list.sort(key=lambda t: t.priority)`. Python's sort is stable, and a stable sort by
   * one key has exactly one result, which insertion sort computes.
   */
  function SortByPriority(ts: seq<Task>): (r: seq<Task>)
    ensures |r| == |ts|
  {
    if ts == [] then [] else Insert(SortByPriority(ts[..|ts| - 1]), ts[|ts| - 1])
  }

  /** The tasks of `ts` with priority `p`, in list order. */
  function WithPriority(ts: seq<Task>, p: int): (r: seq<Task>)
  {
    if ts == [] then []
    else WithPriority(ts[..|ts| - 1], p) + (if ts[|ts| - 1].priority == p then [ts[|ts| - 1]] else [])
  }

  /** Inserting adds `t` and nothing else. */
  lemma {:induction false} InsertPermutes(ts: seq<Task>, t: Task)
    ensures multiset(Insert(ts, t)) == multiset(ts) + multiset{t}
  {
    if ts != [] && ts[|ts| - 1].priority > t.priority {
      var n := |ts| - 1;
      InsertPermutes(ts[..n], t);
      assert ts == ts[..n] + [ts[n]];
    }
  }

  /** Inserting into a sorted list keeps it sorted. */
  lemma {:induction false} InsertSorted(ts: seq<Task>, t: Task)
    requires SortedPriorities(PrioritiesOf(ts))
    ensures SortedPriorities(PrioritiesOf(Insert(ts, t)))
  {
    var k := InsertPoint(ts, t);
    InsertAtPoint(ts, t);
    InsertPointSplits(ts, t);
    var r := Insert(ts, t);
    assert forall i :: 0 <= i < k ==> r[i] == ts[i];
    assert r[k] == t;
    assert forall i :: k < i < |r| ==> r[i] == ts[i - 1];
    forall i, j | 0 <= i < j < |r|
      ensures r[i].priority <= r[j].priority
    {
      if i < k && j > k {
        assert PrioritiesOf(ts)[i] <= PrioritiesOf(ts)[j - 1];
      } else if i > k {
        assert PrioritiesOf(ts)[i - 1] <= PrioritiesOf(ts)[j - 1];
      } else if j < k {
        assert PrioritiesOf(ts)[i] <= PrioritiesOf(ts)[j];
      }
    }
  }

  /** Inserting `t` adds it at the end of the tasks of its own priority and leaves the other priorities' order alone. */
  lemma {:induction false} InsertStable(ts: seq<Task>, t: Task, p: int)
    ensures WithPriority(Insert(ts, t), p) == WithPriority(ts, p) + (if t.priority == p then [t] else [])
  {
    var r := Insert(ts, t);
    if ts == [] || ts[|ts| - 1].priority <= t.priority {
      assert r[..|r| - 1] == ts;
    } else {
      var n := |ts| - 1;
      InsertStable(ts[..n], t, p);
      assert r[..|r| - 1] == Insert(ts[..n], t);
    }
  }

  /** The sorted list is sorted by ascending priority. */
  lemma {:induction false} SortSorted(ts: seq<Task>)
    ensures SortedPriorities(PrioritiesOf(SortByPriority(ts)))
  {
    if ts != [] {
      SortSorted(ts[..|ts| - 1]);
      InsertSorted(SortByPriority(ts[..|ts| - 1]), ts[|ts| - 1]);
    }
  }

  /** The sorted list is a permutation of the list. */
  lemma {:induction false} SortPermutes(ts: seq<Task>)
    ensures multiset(SortByPriority(ts)) == multiset(ts)
  {
    if ts != [] {
      var n := |ts| - 1;
      SortPermutes(ts[..n]);
      InsertPermutes(SortByPriority(ts[..n]), ts[n]);
      assert ts == ts[..n] + [ts[n]];
    }
  }

  /** The sort is stable: tasks of equal priority keep their relative order. */
  lemma {:induction false} SortStable(ts: seq<Task>, p: int)
    ensures WithPriority(SortByPriority(ts), p) == WithPriority(ts, p)
  {
    if ts != [] {
      var n := |ts| - 1;
      SortStable(ts[..n], p);
      InsertStable(SortByPriority(ts[..n]), ts[n], p);
    }
  }

  /** Sorting a sorted list changes nothing. */
  lemma {:induction false} SortOfSorted(ts: seq<Task>)
    requires SortedPriorities(PrioritiesOf(ts))
    ensures SortByPriority(ts) == ts
  {
    if ts != [] {
      var n := |ts| - 1;
      assert SortedPriorities(PrioritiesOf(ts[..n])) by {
        assert forall i :: 0 <= i < n ==> ts[..n][i] == ts[i];
      }
      SortOfSorted(ts[..n]);
      assert n > 0 ==> ts[n - 1].priority <= ts[n].priority;
      assert ts[..n] + [ts[n]] == ts;
    }
  }

  /**
   * Appending `t` to a sorted registry and sorting inserts `t` after every task whose
   * priority number is no larger than its own, and before every task whose number is larger.
   */
  lemma {:induction false} AppendThenSort(ts: seq<Task>, t: Task)
    requires SortedPriorities(PrioritiesOf(ts))
    ensures exists k :: (0 <= k <= |ts| && SortByPriority(ts + [t]) == ts[..k] + [t] + ts[k..] &&
      (forall i :: 0 <= i < k ==> ts[i].priority <= t.priority) &&
      (forall i :: k <= i < |ts| ==> ts[i].priority > t.priority))
  {
    assert (ts + [t])[..|ts|] == ts;
    SortOfSorted(ts);
    InsertAtPoint(ts, t);
    InsertPointSplits(ts, t);
  }

  /** Where `Insert` puts `t`: after the longest suffix of tasks whose priority number is larger. */
  function InsertPoint(ts: seq<Task>, t: Task): (k: nat)
    ensures k <= |ts|
  {
    if ts == [] || ts[|ts| - 1].priority <= t.priority then |ts| else InsertPoint(ts[..|ts| - 1], t)
  }

  /** `Insert` puts `t` at `InsertPoint` and keeps every other task in order. */
  lemma {:induction false} InsertAtPoint(ts: seq<Task>, t: Task)
    ensures var k := InsertPoint(ts, t); Insert(ts, t) == ts[..k] + [t] + ts[k..]
  {
    if ts != [] && ts[|ts| - 1].priority > t.priority {
      var n := |ts| - 1;
      var front := ts[..n];
      InsertAtPoint(front, t);
      var k := InsertPoint(front, t);
      assert front[..k] == ts[..k];
      assert front[k..] + [ts[n]] == ts[k..];
    }
  }

  /** In a sorted list the tasks before `InsertPoint` have priority numbers no larger than `t`'s, and the rest larger. */
  lemma {:induction false} InsertPointSplits(ts: seq<Task>, t: Task)
    requires SortedPriorities(PrioritiesOf(ts))
    ensures var k := InsertPoint(ts, t);
      (forall i :: 0 <= i < k ==> ts[i].priority <= t.priority) &&
      (forall i :: k <= i < |ts| ==> ts[i].priority > t.priority)
  {
    if ts != [] && ts[|ts| - 1].priority > t.priority {
      var n := |ts| - 1;
      var front := ts[..n];
      assert SortedPriorities(PrioritiesOf(front)) by {
        assert forall i :: 0 <= i < n ==> front[i] == ts[i];
      }
      InsertPointSplits(front, t);
      var k := InsertPoint(front, t);
      forall i | k <= i < |ts|
        ensures ts[i].priority > t.priority
      {
        if i < n { assert ts[i] == front[i]; }
      }
    }
  }

  /** Every message addressed by handle goes to a task of `M`. */
  ghost predicate Addressed(msgs: seq<Msg>, M: set<Task>)
  {
    forall m | m in msgs && m.target.Handle? :: m.target.task in M
  }

  /** The tasks a script sends to by handle. */
  ghost function Targets(steps: seq<Step>): (r: set<Task>)
  {
    set s, m | s in steps && m in s.sends && m.target.Handle? :: m.target.task
  }

  /** The next step of a started body sends only to tasks its script names. */
  lemma {:induction false} StepAddressed(th: Thread, M: set<Task>)
    requires Targets(th.steps) <= M
    ensures Addressed(NextStep(th).sends, M)
  {
    if th.pc < |th.steps| {
      var s := th.steps[th.pc];
      forall m | m in s.sends && m.target.Handle?
        ensures m.target.task in M
      {
        assert m.target.task in Targets(th.steps);
      }
    }
  }

  /** Messages addressed within `M`, delivered over a registry inside `M`, reach only tasks of `M`. */
  lemma {:induction false} RecipientsWithin(msgs: seq<Msg>, ts: seq<Task>, M: set<Task>)
    requires Addressed(msgs, M) && TaskSet(ts) <= M
    ensures Recipients(msgs, ts) <= M
  {
    forall u | u in Recipients(msgs, ts)
      ensures u in M
    {
      var m :| m in msgs && Destination(m, ts) == Some(u);
      if m.target.Name? {
        var k :| 0 <= k < |ts| && u == ts[k];
        assert u in TaskSet(ts);
      }
    }
  }

  /** A task no message is delivered to receives nothing. */
  lemma {:induction false} NotRecipient(msgs: seq<Msg>, ts: seq<Task>, u: Task)
    requires u !in Recipients(msgs, ts)
    ensures Routed(msgs, ts, u) == []
  {
    if msgs != [] {
      var n := |msgs| - 1;
      assert forall m | m in msgs[..n] :: m in msgs;
      NotRecipient(msgs[..n], ts, u);
    }
  }

  /** At most one task of `ts` is RUNNING, as a statement about the tasks rather than their positions. */
  ghost predicate OneRunning(ts: seq<Task>)
    reads TaskSet(ts)`state
  {
    forall u, v | u in ts && v in ts && u.state == Running && v.state == Running :: u == v
  }

  /** Adding a task that is not RUNNING to a registry with at most one RUNNING task keeps it so. */
  lemma {:induction false} OneRunningAdd(ts: seq<Task>, t: Task, r: seq<Task>)
    requires OneRunning(ts) && t.state != Running && TaskSet(r) == TaskSet(ts) + {t}
    ensures OneRunning(r)
  {
    assert forall u | u in r :: u in TaskSet(ts) + {t};
  }

  /** Dropping tasks from a registry with at most one RUNNING task keeps it so. */
  lemma {:induction false} OneRunningSub(ts: seq<Task>, r: seq<Task>)
    requires OneRunning(ts) && TaskSet(r) <= TaskSet(ts)
    ensures OneRunning(r)
  {
    assert forall u | u in r :: u in TaskSet(ts);
  }

  /**
   * If at most one task was RUNNING before a scheduler pass, at most one is after it: the
   * pass leaves only the chosen task RUNNING, and the step changes only the chosen task.
   */
  lemma {:induction false} ScanKeepsOneRunning(S: seq<State>, woke: seq<bool>, P: seq<int>, after: seq<State>)
    requires |S| == |woke| == |P| == |after| && AtMostOneRunning(S)
    requires var r := ScanAll(S, woke, P);
      (r.choice.None? ==> after == r.after) &&
      (r.choice.Some? ==> after == r.after[r.choice.value := after[r.choice.value]])
    ensures AtMostOneRunning(after)
  {
    var r := ScanAll(S, woke, P);
    ScanOneRunning(S, woke, P);
    forall j | 0 <= j < |after| && after[j] == Running
      ensures r.choice == Some(j)
    {
    }
  }

  /** On a registry without repeats, one RUNNING task is one RUNNING position. */
  lemma {:induction false} OneRunningPositions(ts: seq<Task>)
    requires Distinct(ts)
    ensures OneRunning(ts) <==> AtMostOneRunning(StatesOf(ts))
  {
    var S := StatesOf(ts);
    if OneRunning(ts) {
      forall i, j | 0 <= i < j < |S| && S[i] == Running
        ensures S[j] != Running
      {
        assert ts[i] in ts && ts[j] in ts;
      }
    }
    if AtMostOneRunning(S) {
      forall u, v | u in ts && v in ts && u.state == Running && v.state == Running
        ensures u == v
      {
        var i :| 0 <= i < |ts| && ts[i] == u;
        var j :| 0 <= j < |ts| && ts[j] == v;
        assert S[i] == Running && S[j] == Running;
      }
    }
  }

  /** Putting `t` into `ts` at position `k` adds `t` to the set of tasks, and no repeat when `t` was not there. */
  lemma {:induction false} SpliceIn(ts: seq<Task>, t: Task, k: nat)
    requires k <= |ts|
    ensures TaskSet(ts[..k] + [t] + ts[k..]) == TaskSet(ts) + {t}
    ensures Distinct(ts) && t !in ts ==> Distinct(ts[..k] + [t] + ts[k..])
  {
    var r := ts[..k] + [t] + ts[k..];
    assert ts == ts[..k] + ts[k..];
    assert forall i :: 0 <= i < |r| ==> r[i] == if i < k then ts[i] else if i == k then t else ts[i - 1];
  }

  /** Dropping one position from a sorted list leaves it sorted. */
  lemma {:induction false} RemoveSorted(ts: seq<Task>, c: nat)
    requires c < |ts| && SortedPriorities(PrioritiesOf(ts))
    ensures SortedPriorities(PrioritiesOf(ts[..c] + ts[c + 1..]))
  {
    var r := ts[..c] + ts[c + 1..];
    assert forall i :: 0 <= i < |r| ==> r[i] == ts[if i < c then i else i + 1];
    forall i, j | 0 <= i < j < |r|
      ensures r[i].priority <= r[j].priority
    {
      var i', j' := if i < c then i else i + 1, if j < c then j else j + 1;
      assert PrioritiesOf(ts)[i'] <= PrioritiesOf(ts)[j'];
    }
  }

  /**
   * The ghost bookkeeping covers the tasks of `ts`: no task is in `R`, its conditions touch
   * only `R`, and it and every task its script sends to by handle are in `M`.
   */
  ghost predicate Covered(ts: seq<Task>, R: set<object>, M: set<Task>)
  {
    forall t | t in ts :: t !in R && t.Reach() <= R && t in M && Targets(t.func.script(t)) <= M
  }

  /**
   * Registering `t` (not yet registered, started, sharing the outbox) by appending and
   * sorting keeps the registry consistent and sorted, and the bookkeeping grown by `t`'s
   * objects and targets covers it.
   */
  lemma {:induction false} AddRegistered(ts: seq<Task>, t: Task, outbox: Outbox, R: set<object>, M: set<Task>)
    requires Registered(ts, outbox) && SortedPriorities(PrioritiesOf(ts)) && Covered(ts, R, M)
    requires t.Valid() && t.thread.Some? && t.outbox == outbox && t !in ts && t !in R
    requires t.Reach() <= R && t in M && Targets(t.func.script(t)) <= M
    ensures var r := SortByPriority(ts + [t]);
      Registered(r, outbox) && SortedPriorities(PrioritiesOf(r)) &&
      Covered(r, R, M) && TaskSet(r) == TaskSet(ts) + {t}
  {
    Appended(ts, t);
    SpliceIn(ts, t, InsertPoint(ts, t));
    var r := SortByPriority(ts + [t]);
    assert forall u | u in r :: u in TaskSet(ts) + {t};
  }

  /** Appending `t` to a sorted list and sorting puts `t` at its insertion point, and keeps the list sorted. */
  lemma {:induction false} Appended(ts: seq<Task>, t: Task)
    requires SortedPriorities(PrioritiesOf(ts))
    ensures var k := InsertPoint(ts, t); SortByPriority(ts + [t]) == ts[..k] + [t] + ts[k..]
    ensures SortedPriorities(PrioritiesOf(SortByPriority(ts + [t])))
  {
    assert (ts + [t])[..|ts|] == ts;
    SortOfSorted(ts);
    InsertAtPoint(ts, t);
    SortSorted(ts + [t]);
  }

  /** Every registered task is started, and its generator sends only to tasks of `M`. */
  lemma {:induction false} ThreadTargets(ts: seq<Task>, outbox: Outbox, R: set<object>, M: set<Task>)
    requires Registered(ts, outbox) && Covered(ts, R, M)
    ensures var T := ThreadsOf(ts); forall i :: 0 <= i < |ts| ==> T[i].Some? && Targets(T[i].value.steps) <= M
  {
    forall i | 0 <= i < |ts|
      ensures ts[i].thread.Some? && Targets(ts[i].thread.value.steps) <= M
    {
      assert ts[i] in ts;
    }
  }

  /** The registry after one pass: as it was, or with the chosen task (at `choice`) removed. */
  ghost predicate Pruned(before: seq<Task>, items: seq<Task>, choice: Option<nat>)
  {
    items == before ||
    (choice.Some? && choice.value < |before| && items == before[..choice.value] + before[choice.value + 1..])
  }

  /** A pruned registry holds no task the registry did not. */
  lemma {:induction false} PrunedWithin(before: seq<Task>, items: seq<Task>, choice: Option<nat>)
    requires Pruned(before, items, choice)
    ensures TaskSet(items) <= TaskSet(before)
  {
    assert forall u | u in items :: u in before;
  }

  /**
   * After a scheduler pass and step that began with at most one task RUNNING (`one`), at
   * most one task of what is left of the registry is RUNNING.
   */
  lemma {:induction false} KeepOneRunning(ts: seq<Task>, items: seq<Task>, S: seq<State>, woke: seq<bool>,
                                          choice: Option<nat>, one: bool)
    requires Distinct(ts) && |S| == |woke| == |ts|
    requires Pruned(ts, items, choice)
    requires one ==> AtMostOneRunning(S)
    requires var r := ScanAll(S, woke, PrioritiesOf(ts));
      choice == r.choice &&
      (choice.None? ==> StatesOf(ts) == r.after) &&
      (choice.Some? ==> StatesOf(ts) == r.after[choice.value := ts[choice.value].state])
    ensures one ==> OneRunning(items)
  {
    if one {
      ScanKeepsOneRunning(S, woke, PrioritiesOf(ts), StatesOf(ts));
      OneRunningPositions(ts);
      assert forall u | u in items :: u in ts;
      OneRunningSub(ts, items);
    }
  }

  /**
   * What one scheduler call leaves, on values: the registry `before` either stays or loses
   * the chosen task, and so stays sorted and covered; the outbox and the returned messages
   * hold what was pending (`sent`) and what the step sent, so they stay addressed.
   */
  lemma {:induction false} StepKeeps(before: seq<Task>, items: seq<Task>, R: set<object>, M: set<Task>,
                                     sent: seq<Msg>, messages: seq<Msg>, outItems: seq<Msg>, choice: Option<nat>,
                                     T: seq<Option<Thread>>)
    // each `== true` keeps a requirement one proof goal at the call instead of one per conjunct
    requires SortedPriorities(PrioritiesOf(before)) && Covered(before, R, M) == true && Addressed(sent, M)
    requires |T| == |before| && forall i :: 0 <= i < |T| ==> T[i].Some? && Targets(T[i].value.steps) <= M
    requires choice.None? ==> messages == [] && items == before && outItems == sent
    requires choice.Some? ==>
      (choice.value < |before| &&
       Stepped(T[choice.value], before[choice.value].state, before[choice.value].conditions, before[choice.value].thread,
               choice.value, before, items, sent, messages, outItems) == true)
    ensures SortedPriorities(PrioritiesOf(items)) && Covered(items, R, M) && TaskSet(items) <= M
    ensures Addressed(outItems, M) && Addressed(messages, M)
    ensures Pruned(before, items, choice)
  {
    if choice.Some? {
      var c := choice.value;
      StepAddressed(T[c].value, M);
      if items != before {
        RemoveSorted(before, c);
        assert forall u | u in items :: u in before;
      }
    }
  }

  /**
   * The kernel: the module-level `tasks` list and the shared outgoing message list
   * `Task._out_messages`. `R` and `Mailboxes` are ghost bookkeeping: every object a
   * registered task's conditions may change, and every task a message may be delivered to.
   */
  class Kernel {
    const tasks: TaskList
    const outbox: Outbox
    ghost var R: set<object>
    ghost var Mailboxes: set<Task>

    /**
     * The registry has no repeats and holds started, consistent tasks that share the outbox,
     * sorted by ascending priority number; conditions touch only `R`; and every message
     * that is or will be sent goes to a task of `Mailboxes`.
     */
    ghost predicate Valid()
      reads this, tasks, outbox, TaskSet(tasks.items)`state, TaskSet(tasks.items)`conditions, TaskSet(tasks.items)`thread
    {
      Registered(tasks.items, outbox) && SortedPriorities(PrioritiesOf(tasks.items)) &&
      Covered(tasks.items, R, Mailboxes) && Addressed(outbox.items, Mailboxes) &&
      this !in R && tasks !in R && outbox !in R && forall u: Task :: u !in R
    }

    /** The kernel before any `add_task`: no tasks, no pending messages. */
    constructor ()
      ensures fresh(tasks) && fresh(outbox) && tasks.items == [] && outbox.items == []
      ensures R == {} && Mailboxes == {}
      ensures Valid()
    {
      tasks := new TaskList();
      outbox := new Outbox();
      R := {};
      Mailboxes := {};
    }
  
    /**
     * `add_task(task)`: a task whose generator has not been created is initialized (its body
     * runs to the first yield); then the task is appended and the registry sorted by
     * priority. `ended` stands for the StopIteration Python raises out of `add_task` when the
     * body returns before its first yield: the task is then not registered.
     */
    method AddTask(t: Task) returns (ended: bool)
      requires Valid() && t.Valid() && t.outbox == outbox && t !in tasks.items
      requires ScriptWellFormed(t.func.script(t))
      modifies this, tasks, outbox, t`thread
      ensures R == old(R) + t.Reach() && Mailboxes == old(Mailboxes) + {t} + Targets(t.func.script(t))
      ensures Valid()
      ensures old(t.thread).Some? ==> !ended && t.thread == old(t.thread) && outbox.items == old(outbox.items)
      ensures old(t.thread).None? ==>
        var step := NextStep(Thread(t.func.script(t), 0));
        t.thread == Some(Resumed(Thread(t.func.script(t), 0))) && ended == step.outcome.Return? &&
        outbox.items == old(outbox.items) + step.sends
      ensures ended ==> tasks.items == old(tasks.items)
      ensures !ended ==> tasks.items == SortByPriority(old(tasks.items) + [t])
      ensures old(OneRunning(tasks.items)) && t.state != Running ==> OneRunning(tasks.items)
    {
      ended := Prepare(t);
      if !ended {
        Register(t);
      }
    }

    /** `if task.thread == None: task.initialize()`, for a task whose messages are accounted for. */
    method Prepare(t: Task) returns (ended: bool)
      requires Valid() && t.Valid() && t.outbox == outbox && t !in tasks.items
      requires ScriptWellFormed(t.func.script(t))
      modifies this, t`thread, outbox
      ensures R == old(R) + t.Reach() && Mailboxes == old(Mailboxes) + {t} + Targets(t.func.script(t))
      ensures Valid() && t.Valid() && t.thread.Some?
      ensures OneRunning(tasks.items) == old(OneRunning(tasks.items))
      ensures old(t.thread).Some? ==> !ended && t.thread == old(t.thread) && outbox.items == old(outbox.items)
      ensures old(t.thread).None? ==>
        var step := NextStep(Thread(t.func.script(t), 0));
        t.thread == Some(Resumed(Thread(t.func.script(t), 0))) && ended == step.outcome.Return? &&
        outbox.items == old(outbox.items) + step.sends
    {
      Enroll(t);
      ended := false;
      if t.thread.None? {
        ghost var sent := outbox.items;
        ended := t.Initialize();
        StepAddressed(Thread(t.func.script(t), 0), Mailboxes);
        assert Addressed(sent, Mailboxes);
      }
    }

    /**
     * One turn of the `start` loop: `default_scheduler(tasks)`, then
     * `deliver_messages(messages, tasks)` over the registry as the scheduler left it.
     *
     * The choice is `ScanAll`'s on the states at entry (on the sorted registry, a candidate
     * with the smallest priority number: `ScanPicksHighestPriority`); every other task is left
     * as `LeftByCall` says; the registry loses at most that task (when its body returned);
     * every mailbox receives the messages routed to it, in order; the kernel's invariant holds
     * again, and at most one task is RUNNING if that was so before.
     */
    method Cycle() returns (messages: seq<Msg>, ghost before: seq<Task>, ghost woke: seq<bool>, ghost polls: seq<Poll>,
                        ghost cleared: seq<seq<Cond>>, choice: Option<nat>)
      requires Valid() == true
      modifies tasks, outbox, TaskSet(tasks.items)`state, TaskSet(tasks.items)`conditions, TaskSet(tasks.items)`thread, R
      modifies Mailboxes`mailbox
      // each `== true` keeps a clause one proof goal instead of one per conjunct
      ensures Valid() == true
      ensures before == old(tasks.items) && |woke| == |before|
      ensures Woken(old(StatesOf(tasks.items)), old(ConditionsOf(tasks.items)), woke, polls, cleared)
      ensures Chained(polls, old(StoreOf(R)), StoreOf(R))
      ensures LeftByCall(old(StatesOf(tasks.items)), woke, PrioritiesOf(before), cleared, old(ThreadsOf(tasks.items)),
                         StatesOf(before), ConditionsOf(before), ThreadsOf(before), choice) == true
      ensures Pruned(before, tasks.items, choice)
      ensures choice.None? ==> messages == [] && tasks.items == before && outbox.items == old(outbox.items)
      ensures choice.Some? ==> choice.value < |before|
      ensures choice.Some? ==>
        Stepped(old(ThreadsOf(tasks.items))[choice.value], StatesOf(before)[choice.value], ConditionsOf(before)[choice.value],
                ThreadsOf(before)[choice.value], choice.value, before, tasks.items, old(outbox.items), messages, outbox.items) == true
      ensures forall u | u in Mailboxes :: u.mailbox == old(u.mailbox) + Routed(messages, tasks.items, u)
      ensures old(OneRunning(tasks.items)) ==> OneRunning(tasks.items)
    {
      messages, before, woke, polls, cleared, choice := Turn();
      Deliver(messages, before);
    }

    /**
     * `deliver_messages(messages, tasks)` over the registry: every mailbox receives the
     * messages routed to it, in order, and nothing else changes.
     */
    method Deliver(messages: seq<Msg>, ghost before: seq<Task>)
      requires Valid() == true && Addressed(messages, Mailboxes) && TaskSet(tasks.items) <= Mailboxes
      modifies Mailboxes`mailbox
      ensures Valid() == true && tasks.items == old(tasks.items) && outbox.items == old(outbox.items)
      ensures OneRunning(tasks.items) == old(OneRunning(tasks.items))
      ensures forall u | u in Mailboxes :: u.mailbox == old(u.mailbox) + Routed(messages, tasks.items, u)
      ensures StatesOf(before) == old(StatesOf(before)) && ConditionsOf(before) == old(ConditionsOf(before))
      ensures ThreadsOf(before) == old(ThreadsOf(before))
    {
      var ts := tasks.items;
      RecipientsWithin(messages, ts, Mailboxes);
      DeliverMessages(messages, ts);
      assert tasks.items == ts;
      forall u | u in Mailboxes && u !in Recipients(messages, ts)
        ensures Routed(messages, ts, u) == []
      {
        NotRecipient(messages, ts, u);
      }
    }

    /** One pass of `start()`'s loop: a `Cycle`, then the check whether any task is left. */
    method Round() returns (finished: bool)
      requires Valid() == true
      modifies tasks, outbox, TaskSet(tasks.items)`state, TaskSet(tasks.items)`conditions, TaskSet(tasks.items)`thread, R
      modifies Mailboxes`mailbox
      ensures Valid() == true
      ensures TaskSet(tasks.items) <= old(TaskSet(tasks.items))
      ensures finished <==> tasks.items == []
      ensures old(OneRunning(tasks.items)) ==> OneRunning(tasks.items)
    {
      var messages, choice;
      ghost var before, woke, polls, cleared;
      messages, before, woke, polls, cleared, choice := Cycle();
      PrunedWithin(before, tasks.items, choice);
      finished := tasks.items == [];
    }

    /**
     * `start()`: runs `Cycle` until a cycle ends with no task registered, which is the
     * loop's only exit. Python loops without bound; `fuel` caps the number of cycles here.
     * `finished` means the registry emptied; otherwise the fuel ran out with tasks left.
     */
    method Start(fuel: nat) returns (cycles: nat, finished: bool)
      requires Valid()
      modifies tasks, outbox, TaskSet(tasks.items)`state, TaskSet(tasks.items)`conditions, TaskSet(tasks.items)`thread, R
      modifies Mailboxes`mailbox
      ensures Valid()
      ensures cycles <= fuel && TaskSet(tasks.items) <= old(TaskSet(tasks.items))
      ensures finished ==> tasks.items == [] && cycles >= 1
      ensures !finished ==> cycles == fuel && (fuel > 0 ==> tasks.items != [])
      ensures old(OneRunning(tasks.items)) ==> OneRunning(tasks.items)
    {
      cycles, finished := 0, false;
      while !finished && cycles < fuel
        invariant Valid() == true
        invariant cycles <= fuel && TaskSet(tasks.items) <= old(TaskSet(tasks.items))
        invariant finished ==> tasks.items == [] && cycles >= 1
        invariant !finished && cycles > 0 ==> tasks.items != []
        invariant old(OneRunning(tasks.items)) ==> OneRunning(tasks.items)
        decreases fuel - cycles
      {
        finished := Round();
        cycles := cycles + 1;
      }
    }

    /** `default_scheduler(tasks)`, with at most one task RUNNING afterwards if that was so before. */
    method Turn() returns (messages: seq<Msg>, ghost before: seq<Task>, ghost woke: seq<bool>, ghost polls: seq<Poll>,
                        ghost cleared: seq<seq<Cond>>, choice: Option<nat>)
      requires Valid()
      modifies tasks, outbox, TaskSet(tasks.items)`state, TaskSet(tasks.items)`conditions, TaskSet(tasks.items)`thread, R
      ensures Valid() == true && Addressed(messages, Mailboxes) && TaskSet(tasks.items) <= Mailboxes
      ensures before == old(tasks.items) && |woke| == |before|
      ensures Woken(old(StatesOf(tasks.items)), old(ConditionsOf(tasks.items)), woke, polls, cleared)
      ensures Chained(polls, old(StoreOf(R)), StoreOf(R))
      ensures LeftByCall(old(StatesOf(tasks.items)), woke, PrioritiesOf(before), cleared, old(ThreadsOf(tasks.items)),
                         StatesOf(before), ConditionsOf(before), ThreadsOf(before), choice) == true
      ensures Pruned(before, tasks.items, choice)
      ensures choice.None? ==> messages == [] && tasks.items == before && outbox.items == old(outbox.items)
      ensures choice.Some? ==> choice.value < |before|
      ensures choice.Some? ==>
        Stepped(old(ThreadsOf(tasks.items))[choice.value], before[choice.value].state, before[choice.value].conditions,
                before[choice.value].thread, choice.value, before, tasks.items, old(outbox.items), messages, outbox.items) == true
      ensures old(OneRunning(tasks.items)) ==> OneRunning(tasks.items)
      ensures Mailboxes == old(Mailboxes) && forall u | u in Mailboxes :: u.mailbox == old(u.mailbox)
    {
      ghost var S := StatesOf(tasks.items);
      ghost var one := OneRunning(tasks.items);
      OneRunningPositions(tasks.items);
      messages, before, woke, polls, cleared, choice := Schedule();
      KeepOneRunning(before, tasks.items, S, woke, choice, one);
    }

    /**
     * `default_scheduler(tasks)`, with the kernel's invariant kept and the messages it returns
     * addressed; every task but the chosen one keeps the state the pass computes, the conditions
     * the pass left it and its generator (`LeftByCall`), and no mailbox changes.
     */
    method Schedule() returns (messages: seq<Msg>, ghost before: seq<Task>, ghost woke: seq<bool>, ghost polls: seq<Poll>,
                        ghost cleared: seq<seq<Cond>>, choice: Option<nat>)
      requires Valid()
      modifies tasks, outbox, TaskSet(tasks.items)`state, TaskSet(tasks.items)`conditions, TaskSet(tasks.items)`thread, R
      // `== true` keeps the invariant one proof goal instead of one per conjunct
      ensures Valid() == true && Addressed(messages, Mailboxes) && TaskSet(tasks.items) <= Mailboxes
      ensures before == old(tasks.items) && |woke| == |before|
      ensures Woken(old(StatesOf(tasks.items)), old(ConditionsOf(tasks.items)), woke, polls, cleared)
      ensures Chained(polls, old(StoreOf(R)), StoreOf(R))
      ensures LeftByCall(old(StatesOf(tasks.items)), woke, PrioritiesOf(before), cleared, old(ThreadsOf(tasks.items)),
                         StatesOf(before), ConditionsOf(before), ThreadsOf(before), choice) == true
      ensures Pruned(before, tasks.items, choice)
      ensures choice.None? ==> messages == [] && tasks.items == before && outbox.items == old(outbox.items)
      ensures choice.Some? ==>
        var c := choice.value;
        c < |before| &&
        Stepped(old(ThreadsOf(tasks.items))[c], before[c].state, before[c].conditions, before[c].thread, c, before,
                tasks.items, old(outbox.items), messages, outbox.items)
      ensures Mailboxes == old(Mailboxes) && forall u | u in Mailboxes :: u.mailbox == old(u.mailbox)
    {
      var ts := tasks.items;
      ghost var S, T := StatesOf(ts), ThreadsOf(ts);
      ghost var sent := outbox.items;
      ThreadTargets(ts, outbox, R, Mailboxes);
      messages, before, woke, polls, cleared, choice := DefaultScheduler(tasks, outbox, R);
      StepKeeps(ts, tasks.items, R, Mailboxes, sent, messages, outbox.items, choice, T);
      forall u | u in Mailboxes
        ensures u.mailbox == old(u.mailbox)
      {
        assert u !in R;
      }
    }

    /** Grows the ghost bookkeeping by the objects `t`'s conditions may change and the tasks it sends to. */
    method Enroll(t: Task)
      requires Valid()
      modifies this
      ensures R == old(R) + t.Reach() && Mailboxes == old(Mailboxes) + {t} + Targets(t.func.script(t))
      ensures Valid()
    {
      ReachHoldsNoTask(t);
      R := R + t.Reach();
      Mailboxes := Mailboxes + {t} + Targets(t.func.script(t));
    }

    /** `tasks.append(task)` and `tasks.sort(key=lambda t: t.priority)`, for a started task. */
    method Register(t: Task)
      requires Valid() && t.Valid() && t.thread.Some? && t.outbox == outbox && t !in tasks.items
      requires t.Reach() <= R && t in Mailboxes && Targets(t.func.script(t)) <= Mailboxes
      modifies tasks
      ensures Valid() == true
      ensures tasks.items == SortByPriority(old(tasks.items) + [t])
      ensures old(OneRunning(tasks.items)) && t.state != Running ==> OneRunning(tasks.items)
    {
      var ts := tasks.items;
      AddRegistered(ts, t, outbox, R, Mailboxes);
      tasks.items := SortByPriority(ts + [t]);
      if OneRunning(ts) && t.state != Running {
        OneRunningAdd(ts, t, tasks.items);
      }
    }
  }
}
