/**
 * The task control block of pyRTOS, the blocking conditions a task can wait on,
 * and the notification slots.
 *
 * A task body (a Python generator function) is modelled as `func`, which, applied to
 * the task as `func(self)` is, gives the script of steps the generator runs: each step
 * sends some messages and then yields (nothing, or a list of conditions) or returns.
 */
module Tasks {
  import opened Wrappers
  import opened Messages
  import opened Queues
  import opened Locks
  import opened Delays

  /** RUNNING = 0, READY = 1, BLOCKED = 2, SUSPENDED = 3. */
  datatype State = Running | Ready | Blocked | Suspended

  type Msg = Message<Task>

  /** Where a `wait_for_notification` generator is: not started, in its waiting loop, or past it. */
  datatype NotifPhase = Fresh | Waiting | Fired

  /**
   * A blocking condition together with the local state of its generator:
   * `delay(ttl)`, `wait_for_message(task)`, `owner.wait_for_notification(index, target)`,
   * `mutex.lock()` (its `has_lock` latch), `queue.send(msg)` (no latch: `sent` is never set)
   * and `queue.recv(out)` (its `received` latch).
   */
  datatype Cond =
    | Delay(ttl: int)
    | WaitMsg(task: Task)
    | Notif(owner: Task, index: int, target: int, phase: NotifPhase)
    | MutexLock(mutex: Mutex, hasLock: bool)
    | QSend(queue: MessageQueue<Msg>, msg: Msg)
    | QRecv(queue: MessageQueue<Msg>, out: Buffer<Msg>, received: bool)

  /** What one resumption of a task body ends with: a bare `yield`, `yield [conditions]`, or the end of the body. */
  datatype Outcome = Yield | Block(conds: seq<Cond>) | Return

  /** One resumption of a task body: the messages it `send`s, then how it suspends. */
  datatype Step = Step(sends: seq<Msg>, outcome: Outcome)

  /** A task function: applied to its task, as `func(self)` is, it gives the script of the generator. */
  datatype Body = Body(script: Task -> seq<Step>)

  /** A started body: its script and how many steps have run. */
  datatype Thread = Thread(steps: seq<Step>, pc: nat)

  /** The objects a poll of `c` may change. */
  function Refs(c: Cond): (r: set<object>)
  {
    match c
    case Delay(_) => {}
    case WaitMsg(_) => {}
    case Notif(owner, _, _, _) => {owner.noteStates}
    case MutexLock(m, _) => {m}
    case QSend(q, _) => {q}
    case QRecv(q, out, _) => {q, out}
  }

  /**
   * A notification condition names a slot that exists: Python's array indexing takes
   * `-n <= index < n` for `n` slots and raises IndexError otherwise.
   */
  predicate WellFormed(c: Cond)
  {
    c.Notif? ==> -c.owner.noteStates.Length <= c.index < c.owner.noteStates.Length
  }

  ghost function ScriptRefs(steps: seq<Step>): (r: set<object>)
  {
    set s, c, o | s in steps && s.outcome.Block? && c in s.outcome.conds && o in Refs(c) :: o
  }

  ghost predicate ScriptWellFormed(steps: seq<Step>)
  {
    forall s, c | s in steps && s.outcome.Block? && c in s.outcome.conds :: WellFormed(c)
  }

  /**
   * The step a started body takes next. A generator whose script is exhausted only raises
   * StopIteration again: a bare return that sends nothing.
   */
  function NextStep(th: Thread): (step: Step)
    ensures th.pc < |th.steps| ==> step in th.steps
    ensures th.pc >= |th.steps| ==> step.sends == [] && step.outcome.Return?
  {
    if th.pc < |th.steps| then th.steps[th.pc] else Step([], Return)
  }

  /**
   * The generator after one resumption: one step further on, or, once the body has
   * returned, at the end of its script, so that nothing of the body runs again.
   */
  function Resumed(th: Thread): (r: Thread)
    ensures r.steps == th.steps
    ensures NextStep(th).outcome.Return? ==> NextStep(r) == Step([], Return)
    ensures !NextStep(th).outcome.Return? ==> r.pc == th.pc + 1
  {
    if NextStep(th).outcome.Return? then th.(pc := |th.steps|) else th.(pc := th.pc + 1)
  }

  /** Once the body has returned, resuming it changes nothing and it returns again. */
  lemma NothingAfterReturn(th: Thread)
    requires NextStep(th).outcome.Return?
    ensures Resumed(Resumed(th)) == Resumed(th) && NextStep(Resumed(th)) == Step([], Return)
  {
  }

  /**
   * One poll of `wait_for_notification(index, target)` on a slot holding `slot`:
   * (ready, slot afterwards, phase afterwards). The first poll resets the slot to 0.
   */
  function NotifPoll(phase: NotifPhase, slot: int, target: int): (r: (bool, int, NotifPhase))
    ensures r.0 <==> r.2.Fired?
    ensures phase.Fresh? ==> r.1 == 0 && (r.0 <==> target == 0)
    ensures !phase.Fresh? ==> r.1 == slot
    ensures phase.Waiting? ==> (r.0 <==> slot == target)
    ensures phase.Fired? ==> r.0
  {
    match phase
    case Fresh => if target == 0 then (true, 0, Fired) else (false, 0, Waiting)
    case Waiting => if slot == target then (true, slot, Fired) else (false, slot, Waiting)
    case Fired => (true, slot, Fired)
  }

  /** The answers of successive polls, where `seen[k]` is the slot's state when poll k starts. */
  function NotifRun(seen: seq<int>, target: int, phase: NotifPhase): (r: seq<bool>)
    ensures |r| == |seen|
  {
    if seen == [] then []
    else
      var (ready, _, p) := NotifPoll(phase, seen[0], target);
      [ready] + NotifRun(seen[1..], target, p)
  }

  lemma {:induction false} FiredStaysReady(seen: seq<int>, target: int, k: nat)
    requires k < |seen|
    ensures NotifRun(seen, target, Fired)[k]
  {
    if k > 0 {
      FiredStaysReady(seen[1..], target, k - 1);
    }
  }

  lemma {:induction false} WaitingRun(seen: seq<int>, target: int, k: nat)
    requires k < |seen|
    ensures NotifRun(seen, target, Waiting)[k] <==> exists j :: 0 <= j <= k && seen[j] == target
  {
    if seen[0] == target {
      if k > 0 {
        FiredStaysReady(seen[1..], target, k - 1);
      }
    } else if k > 0 {
      WaitingRun(seen[1..], target, k - 1);
      if exists j :: 0 <= j <= k && seen[j] == target {
        var j :| 0 <= j <= k && seen[j] == target;
        assert seen[1..][j - 1] == target;
      }
    }
  }

  /**
   * `wait_for_notification(index, target)`: the first poll resets the slot to 0, so poll k
   * answers True exactly when the target is 0 or the slot held the target at some poll
   * 1..k; from the first True on it answers True whatever the slot holds.
   */
  lemma {:induction false} NotificationWait(seen: seq<int>, target: int, k: nat)
    requires k < |seen|
    ensures NotifRun(seen, target, Fresh)[k] <==> target == 0 || exists j :: 1 <= j <= k && seen[j] == target
  {
    if target == 0 {
      if k > 0 {
        FiredStaysReady(seen[1..], target, k - 1);
      }
    } else if k > 0 {
      WaitingRun(seen[1..], target, k - 1);
      if exists j :: 1 <= j <= k && seen[j] == target {
        var j :| 1 <= j <= k && seen[j] == target;
        assert seen[1..][j - 1] == target;
      }
    }
  }

  /** `Task._out_messages`: the one outgoing list every task appends to. */
  class Outbox {
    var items: seq<Msg>

    constructor ()
      ensures items == []
    {
      items := [];
    }
  }

  /** Where `tasks.remove(t)` removes: the first position of `t`. */
  function IndexOf(ts: seq<Task>, t: Task): (k: nat)
    requires t in ts
    ensures k < |ts| && ts[k] == t && forall j :: 0 <= j < k ==> ts[j] != t
  {
    if ts[0] == t then 0 else 1 + IndexOf(ts[1..], t)
  }

  /** The kernel's registry of tasks (the module-level `tasks` list). */
  class TaskList {
    var items: seq<Task>

    constructor ()
      ensures items == []
    {
      items := [];
    }

    /** `tasks.remove(t)`: drops the first occurrence of `t`. */
    method Remove(t: Task)
      requires t in items
      modifies this
      ensures var k := IndexOf(old(items), t); items == old(items[..k] + items[k + 1..])
    {
      var k := IndexOf(items, t);
      items := items[..k] + items[k + 1..];
    }
  }

  class Task {
    const func: Body
    const priority: int
    const name: Option<string>
    /** `notes[0]` and `notes[1]`: the state and value of each notification slot. */
    const noteStates: array<int>
    const noteValues: array<int>
    /** The shared outgoing list, `Task._out_messages`. */
    const outbox: Outbox
    var state: State
    var conditions: seq<Cond>
    /** The running generator: None until `initialize`. */
    var thread: Option<Thread>
    /** `_in_messages`, the inbound mailbox. */
    var mailbox: seq<Msg>

    /** The objects the conditions of this task's body may change. */
    ghost function Reach(): (r: set<object>)
    {
      ScriptRefs(func.script(this))
    }

    ghost predicate Valid()
      reads this`state, this`conditions, this`thread
    {
      noteStates != noteValues && noteStates.Length == noteValues.Length &&
      (state != Blocked ==> conditions == []) &&
      (thread.None? ==> conditions == []) &&
      (thread.Some? ==> thread.value.steps == func.script(this) && ScriptWellFormed(thread.value.steps)) &&
      (forall c | c in conditions :: WellFormed(c) && Refs(c) <= Reach())
    }

    /** `Task(func, priority, name, notifications, mailbox=True)`; `notifications` 0 stands for None. */
    constructor (func: Body, priority: int, name: Option<string>, notifications: nat, outbox: Outbox)
      ensures this.func == func && this.priority == priority && this.name == name && this.outbox == outbox
      ensures state == Ready && conditions == [] && thread == None && mailbox == []
      ensures fresh(noteStates) && fresh(noteValues)
      ensures noteStates.Length == notifications && noteValues.Length == notifications
      ensures forall i :: 0 <= i < notifications ==> noteStates[i] == 0 && noteValues[i] == 0
      ensures Valid()
    {
      this.func := func;
      this.priority := priority;
      this.name := name;
      this.outbox := outbox;
      noteStates := new int[notifications](_ => 0);
      noteValues := new int[notifications](_ => 0);
      state := Ready;
      conditions := [];
      thread := None;
      mailbox := [];
    }

    /**
     * Starts the body and runs it to its first suspension point; what that first
     * suspension yields is ignored. `ended` means the body returned at once (Python
     * raises StopIteration out of `initialize`).
     */
    method Initialize() returns (ended: bool)
      requires Valid() && thread.None?
      requires ScriptWellFormed(func.script(this))
      modifies this`thread, outbox
      ensures thread == Some(Resumed(Thread(func.script(this), 0)))
      ensures var step := NextStep(Thread(func.script(this), 0));
        ended == step.outcome.Return? && outbox.items == old(outbox.items) + step.sends
      ensures Valid()
    {
      var th := Thread(func.script(this), 0);
      var step := NextStep(th);
      outbox.items := outbox.items + step.sends;
      thread := Some(Resumed(th));
      ended := step.outcome.Return?;
    }

    /**
     * Resumes the body for one step. `ended` means the body returned (StopIteration):
     * the outbox is then left as it is. Otherwise a yielded list blocks the task on
     * exactly those conditions, a bare yield changes neither state nor conditions, and
     * the outbox is handed back in `send` order and emptied.
     */
    method RunNext() returns (ended: bool, msgs: seq<Msg>)
      requires Valid() && thread.Some?
      modifies this`state, this`conditions, this`thread, outbox
      ensures thread == Some(Resumed(old(thread.value)))
      ensures var step := NextStep(old(thread.value));
        ended == step.outcome.Return? &&
        (ended ==> msgs == [] && outbox.items == old(outbox.items) + step.sends) &&
        (!ended ==> msgs == old(outbox.items) + step.sends && outbox.items == []) &&
        (step.outcome.Block? ==> state == Blocked && conditions == step.outcome.conds) &&
        (!step.outcome.Block? ==> state == old(state) && conditions == old(conditions))
      ensures Valid()
    {
      var th := thread.value;
      var step := NextStep(th);
      outbox.items := outbox.items + step.sends;
      thread := Some(Resumed(th));
      if step.outcome.Return? {
        ended, msgs := true, [];
        return;
      }
      ended := false;
      if step.outcome.Block? {
        assert step in th.steps;
        conditions := step.outcome.conds;
        state := Blocked;
        assert forall c | c in conditions :: Refs(c) <= ScriptRefs(th.steps);
      }
      msgs := outbox.items;
      outbox.items := [];
    }

    method Send(msg: Msg)
      modifies outbox
      ensures outbox.items == old(outbox.items) + [msg]
    {
      outbox.items := outbox.items + [msg];
    }

    /** Drains the mailbox: its contents in delivery order, leaving it empty. */
    method Recv() returns (msgs: seq<Msg>)
      modifies this`mailbox
      ensures msgs == old(mailbox) && mailbox == [] && MessageCount() == 0
    {
      msgs := mailbox;
      mailbox := [];
    }

    function MessageCount(): (n: nat)
      reads this
    {
      |mailbox|
    }

    method Deliver(msg: Msg)
      modifies this`mailbox
      ensures mailbox == old(mailbox) + [msg]
      ensures MessageCount() == old(MessageCount()) + 1
    {
      mailbox := mailbox + [msg];
    }

    /** Forces SUSPENDED and drops the pending conditions; the result does not depend on the old state. */
    method Suspend()
      requires Valid()
      modifies this`state, this`conditions
      ensures state == Suspended && conditions == []
      ensures Valid()
    {
      state := Suspended;
      conditions := [];
    }

    /** Forces READY and drops the pending conditions; the result does not depend on the old state. */
    method Resume()
      requires Valid()
      modifies this`state, this`conditions
      ensures state == Ready && conditions == []
      ensures Valid()
    {
      state := Ready;
      conditions := [];
    }

    /**
     * The slot a notification index reaches, as Python's array indexing has it: an index
     * from 0 is the slot itself, a negative one counts back from the end.
     */
    function Slot(index: int): (k: nat)
      requires -noteStates.Length <= index < noteStates.Length
      ensures k < noteStates.Length && (0 <= index ==> k == index) && (index < 0 ==> k == noteStates.Length + index)
    {
      if index < 0 then noteStates.Length + index else index
    }

    method NotifySetValue(index: int, newState: int, value: int)
      requires Valid() && -noteStates.Length <= index < noteStates.Length
      modifies noteStates, noteValues
      ensures noteStates[..] == old(noteStates[..])[Slot(index) := newState]
      ensures noteValues[..] == old(noteValues[..])[Slot(index) := value]
    {
      var k := Slot(index);
      noteStates[k] := newState;
      noteValues[k] := value;
    }

    method NotifyIncValue(index: int, newState: int, step: int)
      requires Valid() && -noteStates.Length <= index < noteStates.Length
      modifies noteStates, noteValues
      ensures noteStates[..] == old(noteStates[..])[Slot(index) := newState]
      ensures noteValues[..] == old(noteValues[..])[Slot(index) := old(noteValues[Slot(index)]) + step]
    {
      var k := Slot(index);
      noteStates[k] := newState;
      noteValues[k] := noteValues[k] + step;
    }

    function NotifyGetValue(index: int): (value: int)
      requires Valid() && -noteStates.Length <= index < noteStates.Length
      reads this, noteValues
    {
      noteValues[Slot(index)]
    }

    method NotifySetState(index: int, newState: int)
      requires -noteStates.Length <= index < noteStates.Length
      modifies noteStates
      ensures noteStates[..] == old(noteStates[..])[Slot(index) := newState]
    {
      noteStates[Slot(index)] := newState;
    }

    method NotifyIncState(index: int, step: int)
      requires -noteStates.Length <= index < noteStates.Length
      modifies noteStates
      ensures noteStates[..] == old(noteStates[..])[Slot(index) := old(noteStates[Slot(index)]) + step]
    {
      var k := Slot(index);
      noteStates[k] := noteStates[k] + step;
    }

    function NotifyGetState(index: int): (state: int)
      requires -noteStates.Length <= index < noteStates.Length
      reads noteStates
    {
      noteStates[Slot(index)]
    }

    /** One poll of the generator returned by `wait_for_notification(index, target)`. */
    method PollNotification(index: int, target: int, phase: NotifPhase) returns (ready: bool, phase': NotifPhase)
      requires -noteStates.Length <= index < noteStates.Length
      modifies noteStates
      ensures var (r, slot, p) := NotifPoll(phase, old(noteStates[Slot(index)]), target);
        ready == r && phase' == p && noteStates[..] == old(noteStates[..])[Slot(index) := slot]
    {
      var k := Slot(index);
      if phase == Fresh {
        noteStates[k] := 0;
      }
      if phase == Fired {
        ready, phase' := true, Fired;
      } else if noteStates[k] != target {
        ready, phase' := false, Waiting;
      } else {
        ready, phase' := true, Fired;
      }
    }
  }

  /** The `wait_for_message(task)` condition: ready exactly when the mailbox is non-empty; it keeps no state. */
  function WaitForMessage(t: Task): (ready: bool)
    reads t
    ensures ready <==> t.mailbox != []
  {
    t.MessageCount() > 0
  }

  /**
   * What the objects conditions change hold: each mutex's flag, each queue's contents,
   * each `recv` output buffer's contents and each notification state array's slots.
   */
  datatype Store = Store(locks: map<Mutex, bool>, queues: map<MessageQueue<Msg>, seq<Msg>>,
                         outs: map<Buffer<Msg>, seq<Msg>>, slots: map<array<int>, seq<int>>)

  /** What the objects of `objs` hold now. */
  ghost function StoreOf(objs: set<object>): (s: Store)
    reads objs
  {
    Store(map m: Mutex | m in objs :: m.locked, map q: MessageQueue<Msg> | q in objs :: q.buffer,
          map b: Buffer<Msg> | b in objs :: b.items, map a: array<int> | a in objs :: a[..])
  }

  /**
   * One poll of `c`, when the shared objects hold `s`, answers `ready`, advances the
   * generator to `next` and leaves the objects holding `s'`: a delay counts down and
   * answers True once its counter is at most 0; a message wait keeps its state and changes
   * nothing; a notification wait polls its slot as `NotifPoll` says; a lock wait polls the
   * flag as `LockPoll` says; a `send` offers its message as `Offer` says; a `recv` polls
   * the queue as `RecvPoll` says, appending what it takes to its output buffer. Nothing
   * else in the store changes.
   */
  ghost predicate Answered(c: Cond, s: Store, ready: bool, next: Cond, s': Store)
  {
    match c
    case Delay(ttl) => ready == DelayPoll(ttl).0 && next == Delay(DelayPoll(ttl).1) && s' == s
    case WaitMsg(_) => next == c && s' == s
    case Notif(owner, index, target, phase) =>
      var a := owner.noteStates;
      a in s.slots && -|s.slots[a]| <= index < |s.slots[a]| &&
      var k := if index < 0 then |s.slots[a]| + index else index;
      var np := NotifPoll(phase, s.slots[a][k], target);
      ready == np.0 && next == c.(phase := np.2) && s' == s.(slots := s.slots[a := s.slots[a][k := np.1]])
    case MutexLock(m, hasLock) =>
      m in s.locks &&
      var lp := LockPoll(s.locks[m], hasLock);
      ready == lp.0 && next == c.(hasLock := lp.2) && s' == s.(locks := s.locks[m := lp.1])
    case QSend(q, msg) =>
      q in s.queues &&
      var offer := Offer(s.queues[q], q.capacity, msg);
      ready == offer.0 && next == c && s' == s.(queues := s.queues[q := offer.1])
    case QRecv(q, out, received) =>
      q in s.queues && out in s.outs &&
      var rp := RecvPoll(s.queues[q], received);
      ready == rp.0 && next == c.(received := rp.3) &&
      s' == s.(queues := s.queues[q := rp.2], outs := s.outs[out := s.outs[out] + (if rp.1.Some? then [rp.1.value] else [])])
  }

  /** One poll of `owner.wait_for_notification(index, target)`: its slot is polled as `NotifPoll` says. */
  method PollNotifCond(c: Cond, ghost R: set<object>) returns (ready: bool, next: Cond)
    requires c.Notif? && WellFormed(c) && Refs(c) <= R
    modifies c.owner.noteStates
    ensures Refs(next) == Refs(c) && WellFormed(next)
    ensures Answered(c, old(StoreOf(R)), ready, next, StoreOf(R))
  {
    var a, p := c.owner.noteStates, c.phase;
    ghost var s0 := StoreOf(R);
    ready, p := c.owner.PollNotification(c.index, c.target, p);
    next := c.(phase := p);
    assert StoreOf(R).slots == s0.slots[a := a[..]];
    assert StoreOf(R).locks == s0.locks && StoreOf(R).queues == s0.queues && StoreOf(R).outs == s0.outs;
  }

  /** One poll of `mutex.lock()`: the flag and the `has_lock` latch are polled as `LockPoll` says. */
  method PollLockCond(c: Cond, ghost R: set<object>) returns (ready: bool, next: Cond)
    requires c.MutexLock? && Refs(c) <= R
    modifies c.mutex
    ensures Refs(next) == Refs(c) && WellFormed(next)
    ensures Answered(c, old(StoreOf(R)), ready, next, StoreOf(R))
  {
    var m, latch := c.mutex, c.hasLock;
    ghost var s0 := StoreOf(R);
    ready, latch := m.PollLock(latch);
    next := c.(hasLock := latch);
    assert StoreOf(R).locks == s0.locks[m := m.locked];
    assert StoreOf(R).queues == s0.queues && StoreOf(R).outs == s0.outs && StoreOf(R).slots == s0.slots;
  }

  /** One poll of `queue.send(msg)`: the message is offered as `Offer` says. */
  method PollSendCond(c: Cond, ghost R: set<object>) returns (ready: bool, next: Cond)
    requires c.QSend? && Refs(c) <= R
    modifies c.queue
    ensures Refs(next) == Refs(c) && WellFormed(next)
    ensures Answered(c, old(StoreOf(R)), ready, next, StoreOf(R))
  {
    var q := c.queue;
    ghost var s0 := StoreOf(R);
    ready := q.PollSend(c.msg);
    next := c;
    assert StoreOf(R).queues == s0.queues[q := q.buffer];
    assert StoreOf(R).locks == s0.locks && StoreOf(R).outs == s0.outs && StoreOf(R).slots == s0.slots;
  }

  /** One poll of `queue.recv(out_buffer)`: the queue and the `received` latch are polled as `RecvPoll` says. */
  method PollRecvCond(c: Cond, ghost R: set<object>) returns (ready: bool, next: Cond)
    requires c.QRecv? && Refs(c) <= R
    modifies c.queue, c.out
    ensures Refs(next) == Refs(c) && WellFormed(next)
    ensures Answered(c, old(StoreOf(R)), ready, next, StoreOf(R))
  {
    var q, out, latch := c.queue, c.out, c.received;
    ghost var s0 := StoreOf(R);
    ready, latch := q.PollRecv(out, latch);
    next := c.(received := latch);
    assert StoreOf(R).queues == s0.queues[q := q.buffer] && StoreOf(R).outs == s0.outs[out := out.items];
    assert StoreOf(R).locks == s0.locks && StoreOf(R).slots == s0.slots;
  }

  /**
   * One `next()` on condition `c`: its answer, its generator state afterwards and what the
   * objects of `R` hold afterwards are as `Answered` says; nothing outside `Refs(c)` changes.
   */
  method PollCond(c: Cond, ghost R: set<object>) returns (ready: bool, next: Cond)
    requires WellFormed(c) && Refs(c) <= R
    modifies Refs(c)
    ensures Refs(next) == Refs(c) && WellFormed(next)
    ensures Answered(c, old(StoreOf(R)), ready, next, StoreOf(R))
    ensures c.WaitMsg? ==> (ready <==> c.task.mailbox != [])
  {
    match c
    case Delay(ttl) =>
      var (r, t) := DelayPoll(ttl);
      ready, next := r, Delay(t);
    case WaitMsg(t) =>
      ready, next := WaitForMessage(t), c;
    case Notif(_, _, _, _) =>
      ready, next := PollNotifCond(c, R);
    case MutexLock(_, _) =>
      ready, next := PollLockCond(c, R);
    case QSend(_, _) =>
      ready, next := PollSendCond(c, R);
    case QRecv(_, _, _) =>
      ready, next := PollRecvCond(c, R);
  }
}
