# pyRTOS kernel in Dafny

pyRTOS is a cooperative, priority-ordered task kernel. A task body is a Python generator. It runs until it yields, and yields either nothing or a list of blocking conditions. The condition generators are polled each cycle until one of them answers True.

This project models the kernel's core:

- the task control block (`Task`): its RUNNING/READY/BLOCKED/SUSPENDED state, its pending conditions, its mailbox, the outgoing message list that all tasks share (`Task._out_messages`), and the notification slots;
- `default_scheduler`: one pass over the registry that polls BLOCKED tasks, picks at most one task to run, and resumes it once;
- the kernel: `add_task`, which initialises a task, appends it and stably sorts the registry by priority, and the `start` loop;
- the blocking conditions: `delay`, `wait_for_message`, `wait_for_notification`, `Mutex.lock`, `MessageQueue.send` and `MessageQueue.recv`;
- messaging: the `Message` record, `deliver_messages`, and the bounded FIFO `MessageQueue`.

Modules, from the leaves up:

- `Wrappers` holds `Option`.
- `Messages` holds `Message`, `Endpoint` and `QUIT`.
- `Queues` holds `MessageQueue` and the `out_buffer` list.
- `Locks` holds `Mutex`.
- `Delays` holds `delay`.
- `Tasks` holds the `Task` class, the `Cond` datatype and the shared `Outbox`. It also holds `TaskList`, the module-level `tasks` list.
- `Delivery` holds `deliver_messages`.
- `Scheduler` holds `default_scheduler`.
- `Kernel` holds `add_task` and `start`.

How the main parts are modelled:

- **Task bodies.** `func` maps the task to a script of steps, just as `func(self)` creates the generator. Each step sends some messages and then ends with a bare `yield`, with `yield [conditions]`, or with the body's return (the StopIteration case). `thread` is the started script together with how many steps have run.
- **Blocking conditions.** Each condition is a `Cond` value that carries its generator's local state: the `ttl` counter, the `has_lock` and `received` latches, and the notification phase. Each kind has a pure one-poll function: `DelayPoll`, `LockPoll`, `Offer`, `RecvPoll` and `NotifPoll`. A method on the owning class ties that function to the heap. Some conditions have no latch, and the model keeps them that way:
  - `MessageQueue.send` never sets its `sent` flag, so every poll that finds room enqueues again;
  - `wait_for_message` keeps no state at all.
- **The scheduler's selection rule** is the pure function `ScanAll`, given which BLOCKED tasks woke. The method `DefaultScheduler` is proved to make exactly the choices `ScanAll` makes. Which tasks woke is tied to the polls through the `Store`: the value of every mutex flag, queue buffer, `out_buffer` list and notification-state array the conditions can reach. `Answered` says, for each kind of condition, what one poll answers, how the condition advances and exactly how the store changes. `Polled` says the same for polling a whole list in order, `Visited` for how the pass treats one task, and `Chained` for how the store passes from one task's polls to the next. What the rule promises is proved as lemmas about `ScanAll`.
- **One step of the chosen task** is described by the predicate `Stepped`: the generator is `Resumed`, the state, conditions, returned messages, outbox and registry follow from the step taken. `RunChosen`, `DefaultScheduler` and the kernel's `Schedule`, `Turn` and `Cycle` all state their step through it. What a whole scheduler call leaves is bundled in the predicate `LeftByCall`: the choice is `ScanAll`'s, and every task other than the chosen one holds `ScanAll`'s state, the conditions the pass left it and its generator as before. `DefaultScheduler`, `Schedule`, `Turn` and `Cycle` all state it, and `PendingDelayLeftBlocked` shows what it means for a task waiting on a delay.
- **The registry and outbox** are objects in the heap, reached through a `Kernel` object. That object's ghost fields `R` and `Mailboxes` record two things: which objects the conditions may change, and which tasks messages may reach.

Three behaviours of the code that a reader might expect to be otherwise, modelled as written:

- **Mutex.** `Mutex` keeps a single `locked` flag and records no owner (pyRTOS/pyRTOS.py:103-130). It is not re-entrant: a second `lock()` by the task that holds the lock blocks.
- **Blocking on an empty list.** A body may yield `[]`. The task is then BLOCKED with no conditions, `True in map(...)` over the empty list is False (pyRTOS/scheduler.py:13), and it stays BLOCKED forever. `PollConditions` proves that an empty list never answers True.
- **After the body returns.** A returned generator raises StopIteration on every later `next`. `Resumed` moves a returned script to its end, so a task that comes back after its body returned only returns again and is removed.

## Model

| member | source | states |
|---|---|---|
| Delays.DelayPoll | pyRTOS/pyRTOS.py:54-61 | one poll of `delay`: ready iff the counter has run out; a ready poll leaves the counter alone, an unready one counts it down by one and never below 0 |
| Delays.DelayRun | pyRTOS/pyRTOS.py:54-61 | successive polls of a `delay` condition give one answer per poll |
| Delays.DelayFiresAfterCycles | pyRTOS/pyRTOS.py:54-61 | `delay(n)` answers False on its first max(n,0) polls and True on every later poll |
| Locks.LockPoll | pyRTOS/pyRTOS.py:109-120 | one poll of `lock()`: ready iff the latch is set or the mutex is free; the latch afterwards equals the answer; acquiring sets the flag, and otherwise the flag is unchanged |
| Locks.TryLock | pyRTOS/pyRTOS.py:122-127 | `nb_lock`: acquired iff the mutex was free, and the flag is set afterwards either way |
| Locks.Mutex.constructor | pyRTOS/pyRTOS.py:103-104 | a new mutex is unlocked |
| Locks.Mutex.PollLock | pyRTOS/pyRTOS.py:109-120 | a poll of `lock()` answers True iff it already holds the lock or the mutex was free; it sets `locked` when it acquires; when it answers False nothing changes |
| Locks.Mutex.NbLock | pyRTOS/pyRTOS.py:122-127 | `nb_lock` succeeds iff the mutex was unlocked, and the mutex is locked afterwards in both cases |
| Locks.Mutex.Unlock | pyRTOS/pyRTOS.py:129-130 | `unlock` clears the flag with no ownership check |
| Locks.LockRun | pyRTOS/pyRTOS.py:109-120 | the answers of successive `lock()` polls, one per poll |
| Locks.LockLatches | pyRTOS/pyRTOS.py:109-120 | once a `lock()` condition has answered True it answers True on every later poll, whatever the flag then holds |
| Locks.AlwaysReadyOnceLatched | pyRTOS/pyRTOS.py:113-114 | a `lock()` condition whose `has_lock` is set answers True at every poll |
| Locks.MutualExclusion | pyRTOS/pyRTOS.py:109-127 | in any run of `nb_lock` calls and `lock()` polls with no `unlock`, at most one acquires, and none if the mutex was locked at the start |
| Queues.Offer | pyRTOS/message.py:35-52 | one `send` poll or `nb_send`: accepted iff the buffer is below capacity; an accepted item goes at the tail and the buffer stays within capacity; a refused one leaves the buffer alone |
| Queues.Take | pyRTOS/message.py:70-74 | `nb_recv`: an item iff the buffer is non-empty; that item is the oldest and the buffer afterwards is the rest; an empty buffer stays as it is |
| Queues.RecvPoll | pyRTOS/message.py:57-67 | one `recv` poll: ready iff the latch is set or the buffer is non-empty; the latch afterwards equals the answer; an item moves iff the latch was clear and the buffer non-empty, and it is the oldest; otherwise the buffer is unchanged |
| Queues.Buffer.constructor | pyRTOS/message.py:57 | the `out_buffer` list starts empty |
| Queues.MessageQueue.constructor | pyRTOS/message.py:30-32 | a new queue has the given capacity, is empty, and is within its bound |
| Queues.MessageQueue.PollSend | pyRTOS/message.py:35-45 | a `send` poll enqueues at the tail and answers True iff there is room; when full it answers False and nothing changes; it has no latch; the bound is kept |
| Queues.MessageQueue.NbSend | pyRTOS/message.py:47-52 | `nb_send` succeeds iff `len(buffer) < capacity`; on success it appends at the tail, and on failure the buffer is unchanged; the bound is kept |
| Queues.MessageQueue.PollRecv | pyRTOS/message.py:57-67 | a `recv` poll moves the queue's head to the end of `out_buffer` unless it already received; it answers False with no change when the queue is empty; the bound is kept |
| Queues.MessageQueue.NbRecv | pyRTOS/message.py:70-74 | `nb_recv` returns None iff the queue is empty; otherwise it removes the oldest item and returns it wrapped in `Some`; the bound is kept |
| Queues.SendEachAppends | pyRTOS/message.py:47-52 | the sends `nb_send` accepts land at the tail in send order; the bound holds; when there is room for all of them, all are accepted |
| Queues.RecvEachInOrder | pyRTOS/message.py:70-74 | `n` calls to `nb_recv`, with `n` at most the queue's length, return the first `n` items oldest first and leave the rest |
| Queues.RecvEachEmpty | pyRTOS/message.py:70-74 | on an empty queue every `nb_recv` returns None and the queue stays empty |
| Queues.SomesCons | pyRTOS/message.py:70-74 | wrapping each item in `Some` commutes with putting one item in front |
| Queues.FifoRoundTrip | pyRTOS/message.py:47-74 | FIFO round trip: `nb_recv` returns what was queued, then exactly the items `nb_send` accepted, in send order, and leaves the queue empty |
| Queues.RecvMovesOnce | pyRTOS/message.py:57-67 | over its whole life a `recv` condition moves exactly one item: the head of the queue at the first poll that finds the queue non-empty |
| Queues.RecvMovesNothingWhenLatched | pyRTOS/message.py:60-61 | once `received` is set, later polls move nothing |
| Queues.CapacityTwoScenario | pyRTOS/message.py:47-74 | on a queue of capacity 2, three `nb_send` calls answer True, True, False, and two `nb_recv` calls return the first two items |
| Tasks.NotifPoll | pyRTOS/task.py:74-80 | one poll of `wait_for_notification`: ready iff the phase afterwards is fired; the first poll resets the slot to 0 and is ready iff the target is 0; later polls leave the slot alone, a waiting poll being ready iff the slot holds the target and a fired one always ready |
| Tasks.NotifRun | pyRTOS/task.py:74-80 | successive polls of `wait_for_notification` give one answer per poll |
| Tasks.FiredStaysReady | pyRTOS/task.py:79-80 | once the generator is past its waiting loop, every poll answers True |
| Tasks.WaitingRun | pyRTOS/task.py:76-80 | inside the waiting loop, poll k answers True iff the slot has held the target at some poll up to k |
| Tasks.NotificationWait | pyRTOS/task.py:74-80 | the first poll resets the slot to 0; poll k answers True iff the target is 0 or the slot held the target at some poll 1..k; after the first True, every poll answers True whatever the slot holds |
| Tasks.Outbox.constructor | pyRTOS/task.py:34 | the shared outgoing list starts empty |
| Tasks.IndexOf | pyRTOS/scheduler.py:32 | `tasks.remove(t)` removes at the first position that holds `t` |
| Tasks.TaskList.constructor | pyRTOS/pyRTOS.py:8 | the registry starts empty |
| Tasks.TaskList.Remove | pyRTOS/scheduler.py:32 | `tasks.remove(t)` drops the first occurrence of `t` and keeps everything else in order |
| Tasks.Task.constructor | pyRTOS/task.py:36-50 | a new task is READY with no conditions, no generator and an empty mailbox; it has the given priority, name and function; its notification slots are all 0 |
| Tasks.NextStep | pyRTOS/task.py:59-61 | the step `next()` on a started body takes: a step of its script while one is left, and a bare return sending nothing once the script is exhausted |
| Tasks.Resumed | pyRTOS/task.py:55-70 | one `next()` of a generator moves it one step on; once the body has returned, the next step is a bare return that sends nothing |
| Tasks.NothingAfterReturn | pyRTOS/task.py:60-70 | after a return, resuming the generator again changes nothing and returns again, so no step of the body runs after its return |
| Tasks.Task.Initialize | pyRTOS/task.py:55-57 | `initialize` creates the generator and runs it to its first suspension; what that first step yields is ignored; its messages stay in the outbox; `ended` iff the body returned at once |
| Tasks.Task.RunNext | pyRTOS/task.py:60-70 | `run_next` runs one step, and the generator becomes `Resumed` of the old one. A yielded list makes the task BLOCKED on exactly that list. A bare yield leaves the state and conditions unchanged. The outbox is returned in `send` order and emptied. If the body returned, the outbox is kept and nothing is returned |
| Tasks.Task.Send | pyRTOS/task.py:107-108 | `send` appends the message to the shared outbox |
| Tasks.Task.Recv | pyRTOS/task.py:110-116 | `recv` returns the mailbox in delivery order and empties it, so `message_count` is 0 afterwards |
| Tasks.Task.Deliver | pyRTOS/task.py:118-119 | `deliver` appends exactly one message at the end of the mailbox; `message_count` grows by one |
| Tasks.Task.Suspend | pyRTOS/task.py:123-125 | `suspend` sets SUSPENDED and clears the conditions; the new state does not depend on the old one, so the call is idempotent |
| Tasks.Task.Resume | pyRTOS/task.py:127-129 | `resume` sets READY and clears the conditions; the call is idempotent |
| Tasks.Task.Slot | pyRTOS/task.py:83-102 | the slot an index reaches with `n` slots: `index` itself when it is from 0, and `n + index` when it is negative; always below `n` |
| Tasks.Task.NotifySetValue | pyRTOS/task.py:83-85 | only slot `Slot(index)` changes, and both its state and its value are written; any index from `-n` to `n - 1` is accepted |
| Tasks.Task.NotifyIncValue | pyRTOS/task.py:87-89 | only slot `Slot(index)` changes; its state is written and `step` is added to its value |
| Tasks.Task.NotifySetState | pyRTOS/task.py:95-96 | only the state of slot `Slot(index)` changes |
| Tasks.Task.NotifyIncState | pyRTOS/task.py:98-99 | only the state of slot `Slot(index)` changes, by `step` |
| Tasks.Task.PollNotification | pyRTOS/task.py:74-80 | one `wait_for_notification` poll on slot `Slot(index)`: exactly `NotifPoll`, with the slot reset on the first poll |
| Tasks.WaitForMessage | pyRTOS/pyRTOS.py:64-66 | `wait_for_message` answers True iff the mailbox is non-empty at poll time, and keeps no state |
| Tasks.PollNotifCond | pyRTOS/task.py:74-80 | one poll of `wait_for_notification`: the answer, the new phase and the new slot state are `NotifPoll`'s, and no other object of the store changes |
| Tasks.PollLockCond | pyRTOS/pyRTOS.py:109-120 | one poll of `lock()`: the answer, the latch and the new flag are `LockPoll`'s, and no other object of the store changes |
| Tasks.PollSendCond | pyRTOS/message.py:35-45 | one poll of `send`: the answer and the new buffer are `Offer`'s, and no other object of the store changes |
| Tasks.PollRecvCond | pyRTOS/message.py:57-67 | one poll of `recv`: the answer, the latch, the new queue and the item appended to `out_buffer` are `RecvPoll`'s, and no other object of the store changes |
| Tasks.PollCond | pyRTOS/scheduler.py:13 | one `next()` of any condition: its answer, its new generator state and the new store are exactly as `Answered` says for its kind; a message wait answers whether the mailbox is non-empty |
| Delivery.FindByName | pyRTOS/message.py:22-24 | finds the first task in list order whose name equals the target name, where the missing name None is a name too (so a None target matches the first unnamed task), or None iff no task has that name |
| Delivery.Destination | pyRTOS/message.py:18-26 | a task target goes to that task; a name target (a string or None) goes to the first task with an equal name, and nowhere iff no name matches |
| Delivery.UnmatchedNamesDropped | pyRTOS/message.py:24-26 | messages whose names match no task reach no mailbox |
| Delivery.Routed | pyRTOS/message.py:17-26 | the messages `deliver_messages` hands to one task: never more than were emitted; their order and positions are stated by `RoutedPositions`, and `DeliverMessages` delivers exactly them |
| Delivery.RoutedPositions | pyRTOS/message.py:18-20 | each task receives a subsequence of the emitted messages, in emitted order, with none of them twice |
| Delivery.DeliverOne | pyRTOS/message.py:19-26 | one message is appended to the mailbox of its destination; no other mailbox changes |
| Delivery.DeliverMessages | pyRTOS/message.py:17-26 | `deliver_messages`: every mailbox grows by exactly the messages routed to it, in list order |
| Scheduler.Visit | pyRTOS/scheduler.py:8-23 | one loop iteration records the visited task's new state and keeps the earlier ones |
| Scheduler.ScanAll | pyRTOS/scheduler.py:8-23 | the pass records one state per task, and the choice is a position in the registry |
| Scheduler.ScanLeavesStates | pyRTOS/scheduler.py:8-23 | READY stays READY; SUSPENDED is untouched; BLOCKED becomes READY exactly when woken; RUNNING stays RUNNING or is demoted to READY |
| Scheduler.VisitLeaves | pyRTOS/scheduler.py:8-23 | the task just visited is left as the rule above says |
| Scheduler.ScanChoiceRunnable | pyRTOS/scheduler.py:9-21 | the chosen task was READY, RUNNING, or BLOCKED and woken; never SUSPENDED, and never BLOCKED and unwoken |
| Scheduler.ScanDemotedNotChosen | pyRTOS/scheduler.py:22-23 | a RUNNING task that gets demoted to READY is not the one chosen |
| Scheduler.ScanChoosesWhenPossible | pyRTOS/scheduler.py:9-21 | a task is chosen iff some task is a candidate |
| Scheduler.ScanRunningRule | pyRTOS/scheduler.py:9-21 | the choice is at or after the first candidate, with a priority no larger than its priority; a chosen task that was not RUNNING is the first candidate, so with no RUNNING task the first READY or woken task is chosen |
| Scheduler.ScanLaterRunningDemoted | pyRTOS/scheduler.py:18-23 | every RUNNING task after the chosen one has a larger priority number and is demoted to READY |
| Scheduler.ScanPicksHighestPriority | pyRTOS/scheduler.py:8-23 | on a priority-sorted registry, the chosen task has the smallest priority number of all candidates |
| Scheduler.ScanOneRunning | pyRTOS/scheduler.py:18-27 | if at most one task was RUNNING before the pass, only the chosen task can be RUNNING after it |
| Scheduler.FirstCandidate | pyRTOS/scheduler.py:9-17 | the first position whose task could run |
| Scheduler.PollingStep | pyRTOS/scheduler.py:13 | after only False answers, polling one more condition extends the record by its answer and its advanced state |
| Scheduler.PollingDone | pyRTOS/scheduler.py:13 | polling that stopped at a True answer or ran out of conditions is `Polled`: the list answered True iff its last answer did |
| Scheduler.PollAt | pyRTOS/scheduler.py:13 | one `next()` on one condition of the list: its answer, its advanced state and the change to the store are as `Answered` says, a message wait answers from the mailbox, and the other conditions stay as they were |
| Scheduler.PollNext | pyRTOS/scheduler.py:13 | one more condition polled extends the record of answers and stores by that poll |
| Scheduler.PollConditions | pyRTOS/scheduler.py:13 | `True in map(next, conditions)`: conditions are polled in order, each answers and changes the store as `Answered` says, polling stops at the first True, and the list answers True iff some polled condition did; later conditions are not advanced and change nothing; the store goes from the first recorded store to the last; a message wait answers whether the mailbox holds a message; an empty list never answers True |
| Scheduler.StatesOf | pyRTOS/task.py:48 | the state of each task, in list order |
| Scheduler.PrioritiesOf | pyRTOS/task.py:38 | the priority of each task, in list order |
| Scheduler.RemoveDistinct | pyRTOS/scheduler.py:32 | in a list without repeats, `remove` drops exactly the chosen position |
| Scheduler.VisitTask | pyRTOS/scheduler.py:9-23 | one loop iteration on the heap has exactly the effect of `Visit`. A BLOCKED task is polled as `PollConditions` does and woken iff its conditions answered True (`Visited`); a woken task now has no conditions. A task that is not BLOCKED changes no object. No other task changes, and the store changes only as the recorded polls say |
| Scheduler.VisitAt | pyRTOS/scheduler.py:9-23 | the same iteration stated on the whole registry: only position `i`'s state and conditions change, no generator and no mailbox changes |
| Scheduler.ChainedStep | pyRTOS/scheduler.py:8-23 | one more task's polls extend the chain of stores |
| Scheduler.FirstPoll | pyRTOS/scheduler.py:13 | a BLOCKED task with conditions polls its first one as `Answered` says, and stops there if it answered True |
| Scheduler.ExpiredDelayWakes | pyRTOS/scheduler.py:12-15 | a BLOCKED task whose first condition is a delay whose counter is at most 0 is woken by the pass on that condition alone, and no object changes |
| Scheduler.PendingDelayCountsDown | pyRTOS/scheduler.py:12-15 | a task BLOCKED on `delay(n)` with `n > 0` is not woken, its counter goes down to `n - 1`, and no object changes |
| Scheduler.FreeLockWakes | pyRTOS/pyRTOS.py:109-120 | a BLOCKED task whose first condition is `lock()` on a free mutex (or with its latch set) wakes on that condition alone; the mutex is then locked, and nothing else changes |
| Scheduler.HeldLockBlocks | pyRTOS/pyRTOS.py:109-120 | a task BLOCKED on `lock()` alone, latch unset, over a locked mutex stays BLOCKED and changes nothing |
| Scheduler.RecvWakes | pyRTOS/message.py:57-67 | a BLOCKED task whose first condition is an unlatched `recv` on a non-empty queue wakes on it alone; the head of the queue moves to the end of `out_buffer` |
| Scheduler.MessageWakes | pyRTOS/scheduler.py:12-15 | a BLOCKED task whose first condition waits on a non-empty mailbox is woken on that condition alone |
| Scheduler.ConditionsOf | pyRTOS/task.py:49 | the pending conditions of each task, in list order |
| Scheduler.ThreadsOf | pyRTOS/task.py:50 | the generator of each task, in list order |
| Scheduler.ProgressStep | pyRTOS/scheduler.py:8-23 | visiting one more task extends the pass's progress by one task |
| Scheduler.Advance | pyRTOS/scheduler.py:8-23 | one iteration of the `for` loop keeps the pass invariant and extends the chain of stores |
| Scheduler.MailInStep | pyRTOS/scheduler.py:13 | recording one more task's answers keeps the record of message-wait answers |
| Scheduler.PassDone | pyRTOS/scheduler.py:8-23 | after the last task, the invariant gives the choice and the states `ScanAll` computes |
| Scheduler.Pass | pyRTOS/scheduler.py:8-23 | the whole loop chooses exactly as `ScanAll` does and leaves each task in the state `ScanAll` gives; every task is visited as `Visited` says, so a BLOCKED task is woken iff its conditions answered True; woken tasks have no conditions; the store goes from its value before the pass to its value after it through the recorded polls (`Chained`) |
| Scheduler.ReachHoldsNoTask | pyRTOS/task.py:74-80 | the objects a condition can change are arrays, mutexes, queues and buffers, never tasks |
| Scheduler.ScanExtend | pyRTOS/scheduler.py:8 | the pass over one more task is one more `Visit` |
| Scheduler.ExpiredDelayScheduled | pyRTOS/scheduler.py:8-27 | when the pass finds a BLOCKED task whose first condition is an expired delay, it wakes the task and chooses some task; if that is the only task, it is the one chosen |
| Scheduler.ChainedOne | pyRTOS/scheduler.py:8-23 | over a one-task registry the store goes from that task's first recorded store to its last |
| Scheduler.FreeLockScheduled | pyRTOS/scheduler.py:8-17 | a lone task BLOCKED on `lock()` over a free mutex is woken and chosen, and the pass leaves that mutex locked and every other object unchanged |
| Scheduler.ExpiredDelayShortCircuits | pyRTOS/scheduler.py:12-17 | a lone task BLOCKED on an expired delay followed by other conditions is woken and chosen, and the pass changes no object, since the later conditions are not polled |
| Scheduler.UnpolledChain | pyRTOS/scheduler.py:8-23 | visits that polled nothing leave every object as it was |
| Scheduler.NothingBlockedKeepsStore | pyRTOS/scheduler.py:8-23 | a pass over a registry with no BLOCKED task wakes no task, changes no task's conditions and changes no object |
| Scheduler.PendingDelayLeftBlocked | pyRTOS/scheduler.py:4-34 | across one scheduler call as `Woken` and `LeftByCall` describe it, a task BLOCKED on `delay(n)` with `n > 0` is not chosen, stays BLOCKED with its counter at `n - 1`, and its generator is untouched |
| Scheduler.DefaultScheduler | pyRTOS/scheduler.py:4-34 | `default_scheduler`: as `LeftByCall` bundles it, the choice is `ScanAll`'s and every task other than the chosen one is left with `ScanAll`'s state, the conditions the pass left it (`cleared`) and its generator unchanged, with each task woken iff its polled conditions answered True (`Woken`), and the store changed exactly by those polls (`Chained`). The chosen task is set RUNNING and resumed once. If its body returned, it is removed and `[]` is returned with the outbox not drained. Otherwise the drained outbox is returned. With no choice, `[]` is returned and nothing runs |
| Scheduler.RunIfChosen | pyRTOS/scheduler.py:26-34 | `if running_task:` with no choice, nothing changes and `[]` is returned; with a choice, the chosen task is stepped as `Stepped` says and no other task changes |
| Scheduler.StepChosen | pyRTOS/scheduler.py:26-30 | the chosen task is set RUNNING before `run_next`; only that task changes |
| Scheduler.RemoveRegistered | pyRTOS/scheduler.py:31-32 | removing the task whose body returned keeps the registry consistent |
| Scheduler.RunChosen | pyRTOS/scheduler.py:26-34 | the tail of `default_scheduler`: one step of the chosen task, then its removal on StopIteration |
| Scheduler.Retire | pyRTOS/scheduler.py:31-32 | on StopIteration the chosen task leaves the registry, which stays consistent |
| Kernel.Insert | pyRTOS/pyRTOS.py:17 | one insertion step of the sort adds exactly one task |
| Kernel.SortByPriority | pyRTOS/pyRTOS.py:17 | the sort keeps the length |
| Kernel.InsertPermutes | pyRTOS/pyRTOS.py:17 | an insertion adds `t` and nothing else, as multisets |
| Kernel.InsertSorted | pyRTOS/pyRTOS.py:17 | inserting into a sorted list keeps it sorted |
| Kernel.InsertStable | pyRTOS/pyRTOS.py:17 | inserting `t` puts it after the tasks of its own priority and keeps every priority's order |
| Kernel.SortSorted | pyRTOS/pyRTOS.py:17 | `tasks.sort(key=priority)` gives ascending priority numbers |
| Kernel.SortPermutes | pyRTOS/pyRTOS.py:17 | the sorted list is a permutation of the list |
| Kernel.SortStable | pyRTOS/pyRTOS.py:17 | the sort is stable: tasks of equal priority keep their relative order |
| Kernel.SortOfSorted | pyRTOS/pyRTOS.py:17 | sorting an already sorted registry changes nothing |
| Kernel.AppendThenSort | pyRTOS/pyRTOS.py:15-17 | on a sorted registry, append-then-sort puts `t` after every task with a priority number no larger than its own and before every larger one; the others keep their order |
| Kernel.InsertPoint | pyRTOS/pyRTOS.py:17 | where an insertion puts `t` lies within the list |
| Kernel.InsertAtPoint | pyRTOS/pyRTOS.py:17 | an insertion splices `t` in at that point and moves nothing else |
| Kernel.InsertPointSplits | pyRTOS/pyRTOS.py:17 | in a sorted list, the insertion point separates the priority numbers no larger than `t`'s from the larger ones |
| Kernel.StepAddressed | pyRTOS/task.py:107-108 | a step sends by handle only to tasks its script names |
| Kernel.RecipientsWithin | pyRTOS/message.py:17-26 | delivery reaches only tasks of the kernel's mailbox set |
| Kernel.NotRecipient | pyRTOS/message.py:17-26 | a task that no message is routed to receives nothing |
| Kernel.OneRunningAdd | pyRTOS/pyRTOS.py:15-17 | registering a task that is not RUNNING keeps at most one task RUNNING |
| Kernel.OneRunningSub | pyRTOS/scheduler.py:32 | removing tasks keeps at most one task RUNNING |
| Kernel.ScanKeepsOneRunning | pyRTOS/scheduler.py:18-30 | if at most one task was RUNNING before a pass, at most one is after the pass and the step |
| Kernel.OneRunningPositions | pyRTOS/scheduler.py:18-23 | on a registry without repeats, one RUNNING task means one RUNNING position |
| Kernel.SpliceIn | pyRTOS/pyRTOS.py:15-17 | putting `t` into the registry adds it to the set of tasks, with no repeat |
| Kernel.RemoveSorted | pyRTOS/scheduler.py:32 | removing a task keeps the registry sorted by priority |
| Kernel.AddRegistered | pyRTOS/pyRTOS.py:15-17 | append-then-sort of a started task keeps the registry consistent and sorted, and adds exactly `t` to its set of tasks |
| Kernel.Appended | pyRTOS/pyRTOS.py:15-17 | append-then-sort on a sorted registry is the splice at the insertion point, and the result is sorted |
| Kernel.ThreadTargets | pyRTOS/pyRTOS.py:12-13 | every registered task has a generator, and it sends only to tasks the kernel knows |
| Kernel.KeepOneRunning | pyRTOS/scheduler.py:18-32 | after a pass and a step, at most one remaining task is RUNNING if that was so before |
| Kernel.PrunedWithin | pyRTOS/scheduler.py:31-32 | the registry after a scheduler call holds no task it did not hold before |
| Kernel.StepKeeps | pyRTOS/scheduler.py:26-34 | one scheduler call keeps the registry sorted and consistent, and the pending and returned messages addressed |
| Kernel.Kernel.constructor | pyRTOS/pyRTOS.py:8 | the kernel starts with no tasks and no pending messages |
| Kernel.Kernel.AddTask | pyRTOS/pyRTOS.py:11-17 | `add_task` initialises only when `thread` is None, then makes the registry the stable sort of the old list plus `t`. If `initialize` ended the body, nothing is registered. At most one task stays RUNNING |
| Kernel.Kernel.Prepare | pyRTOS/pyRTOS.py:12-13 | `initialize` runs iff the task has no generator yet; the kernel invariant is kept |
| Kernel.Kernel.Enroll | pyRTOS/pyRTOS.py:11-17 | the kernel's bookkeeping grows by the new task and its targets, and the invariant is kept |
| Kernel.Kernel.Register | pyRTOS/pyRTOS.py:15-17 | `tasks.append(task); tasks.sort(key=priority)`: the registry becomes `SortByPriority(old + [t])` and stays sorted and consistent |
| Kernel.Kernel.Schedule | pyRTOS/scheduler.py:4-34 | one `default_scheduler` call from the kernel: the polls give the wake-ups and the conditions `cleared` as `Woken` says, and the store changes as `Chained` says; as `LeftByCall` says, the choice is `ScanAll`'s and every unchosen task keeps `ScanAll`'s state, its `cleared` conditions and its generator; no mailbox changes; with no choice nothing is returned and the registry and outbox are unchanged; with a choice the chosen task's step, its new state, conditions and generator, the returned messages and the outbox are as `Stepped` says; the registry loses at most the chosen task; the kernel invariant holds |
| Kernel.Kernel.Turn | pyRTOS/scheduler.py:4-34 | every clause of `Schedule`: `Woken`, `Chained`, `LeftByCall` for the unchosen tasks, `Stepped` for the chosen one, the registry losing at most that task, and no mailbox changed; and at most one task is RUNNING afterwards if that was so before |
| Kernel.Kernel.Deliver | pyRTOS/pyRTOS.py:31 | `deliver_messages(messages, tasks)` on the registry: every mailbox grows by exactly the messages routed to it, in order, and nothing else changes: the registry, the outbox and every task's state, conditions and generator stay as they were |
| Kernel.Kernel.Cycle | pyRTOS/pyRTOS.py:29-31 | one iteration of `start`: the scheduler once, with the wakes (`Woken`), the store changes (`Chained`), the choice and what every unchosen task is left holding (`LeftByCall`), the chosen task's step and the returned messages (`Stepped`) as `Turn` states them, then delivery of exactly those messages, so every mailbox grows by its routed messages; the invariant is kept |
| Kernel.Kernel.Round | pyRTOS/pyRTOS.py:29-34 | one iteration followed by the emptiness test: `finished` iff no task is left; the registry only shrinks |
| Kernel.Kernel.Start | pyRTOS/pyRTOS.py:21-34 | the loop stops only once the registry is empty; with fuel left over that is the only exit; the invariant and the one-RUNNING property are kept |

## Left out

- Wall-clock timeouts are not modelled, because they depend on `time.monotonic`. These are `timeout` and `timeout_ns` (pyRTOS/pyRTOS.py:41-51).
- User-defined conditions (UFunctions) are not modelled. Only the condition kinds the core defines are present.
- Task bodies are scripts, not Python generators. A body cannot inspect kernel state, and its script is fixed when it is created. A step only sends messages and then suspends. So a body that, inside a cycle, calls `add_task`, `suspend` or `resume`, `recv` on its mailbox, `nb_send` or `nb_recv` on a queue, `nb_lock` or `unlock` on a mutex, or the `notify_*` methods is not represented. Each of those operations is modelled as a separate call on its object. In particular, nothing in the kernel model drains a mailbox: mailboxes only grow from cycle to cycle.
- Kernel.Kernel.Start: `start(scheduler)` accepts any scheduler function (pyRTOS/pyRTOS.py:21-25). The model always uses `default_scheduler`, because a user-supplied scheduler is arbitrary code with no contract to model.
- Queues.MessageQueue.NbRecv returns an `Option`. Python returns `None` both for an empty queue and for a queued item that is itself `None`; the model keeps those two cases apart.
- Kernel.Kernel.Start: Python's `while run` loop has no bound, but the model runs at most `fuel` cycles. The method proves what holds after any number of cycles. It does not prove termination, which the source does not promise.
- Kernel.Kernel.AddTask requires that the task is not already registered. Python would append a duplicate, and the model keeps its registry free of repeats.
- Kernel.Kernel.AddTask and Kernel.Kernel.Prepare: in Python, a body that returns before its first yield raises StopIteration out of `add_task`. Here that is the `ended` result, and the task is not registered.
- Kernel.Kernel.Cycle and Kernel.Kernel.Turn state the choice as `ScanAll`'s. They do not repeat the priority order, which `Scheduler.ScanPicksHighestPriority` proves about `ScanAll`.
- Kernel.Kernel.Valid holds two ghost sets, `R` and `Mailboxes`, that Python does not have. They only describe which objects may change.
- The outgoing list is one object shared by every task, as the class attribute `Task._out_messages` is. Only the tasks of one kernel are covered.
- `notify_get_value`, `notify_get_state` and `message_count` are plain reads. Their results are stated through the operations that change them.
- Notification slots are unbounded integers. Python's signed-byte state array and long value array can overflow.
- A task created with `mailbox=False` has no `_in_messages` attribute in Python, and delivering to it raises AttributeError. The model always gives a task a mailbox.
- Delivery.Destination: a target is tagged as a task handle or a name, where a name is a string or None. Python tests `type(target) == Task` and compares any other target with `==` against task names. Non-Task targets that are neither strings nor None (numbers, say) are not modelled; they match no task unless a name compares equal to them.
- `notifications=None` is modelled as zero slots. With `n` slots, `wait_for_notification` and the `notify_*` methods accept an index from `-n` to `n - 1`, a negative one counting back from the end as Python's array indexing does. They require an index in that range; outside it Python raises IndexError, which the model does not represent.
- `QUIT` is only the constant. The kernel code gives it no behaviour.
- The source has no BinarySemaphore, service routines, or priority-inheritance mutex, so none is modelled.
