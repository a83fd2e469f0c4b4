/** `deliver_messages`: routing the messages of one cycle into task mailboxes. */
module Delivery {
  import opened Wrappers
  import opened Messages
  import opened Tasks

  /** The position of the first task in list order whose name equals `n` (None matches an unnamed task). */
  function FindByName(tasks: seq<Task>, n: Option<string>): (r: Option<nat>)
    ensures r.Some? ==> r.value < |tasks| && tasks[r.value].name == n
    ensures r.Some? ==> forall j :: 0 <= j < r.value ==> tasks[j].name != n
    ensures r.None? <==> forall j :: 0 <= j < |tasks| ==> tasks[j].name != n
  {
    if tasks == [] then None
    else if tasks[0].name == n then Some(0)
    else
      match FindByName(tasks[1..], n)
      case None => None
      case Some(k) => Some(k + 1)
  }

  /** Where a message is delivered: its handle target, else the first task with that name, else nowhere. */
  function Destination(m: Msg, tasks: seq<Task>): (r: Option<Task>)
    ensures m.target.Handle? ==> r == Some(m.target.task)
    ensures m.target.Name? ==> (r.None? <==> forall t | t in tasks :: t.name != m.target.name)
    ensures m.target.Name? && r.Some? ==>
      exists k :: (0 <= k < |tasks| && r.value == tasks[k] && tasks[k].name == m.target.name &&
                   forall j :: 0 <= j < k ==> tasks[j].name != m.target.name)
  {
    match m.target
    case Handle(t) => Some(t)
    case Name(n) =>
      match FindByName(tasks, n)
      case None => None
      case Some(k) => Some(tasks[k])
  }

  /** The messages of `msgs` that reach task `u`, in emitted order. */
  function Routed(msgs: seq<Msg>, tasks: seq<Task>, u: Task): (r: seq<Msg>)
    ensures |r| <= |msgs|
  {
    if msgs == [] then []
    else
      var m := msgs[|msgs| - 1];
      Routed(msgs[..|msgs| - 1], tasks, u) + (if Destination(m, tasks) == Some(u) then [m] else [])
  }

  /** Every task some message of `msgs` reaches. */
  function Recipients(msgs: seq<Msg>, tasks: seq<Task>): (r: set<Task>)
  {
    set m | m in msgs && Destination(m, tasks).Some? :: Destination(m, tasks).value
  }

  /** A message whose name matches no task is dropped: it reaches no mailbox. */
  lemma {:induction false} UnmatchedNamesDropped(msgs: seq<Msg>, tasks: seq<Task>, u: Task)
    requires forall m | m in msgs :: m.target.Name? && forall t | t in tasks :: t.name != m.target.name
    ensures Routed(msgs, tasks, u) == []
  {
    if msgs != [] {
      UnmatchedNamesDropped(msgs[..|msgs| - 1], tasks, u);
    }
  }

  /**
   * The positions in `msgs` of the messages that reach `u`, strictly increasing: each task
   * receives a subsequence of the emitted messages, in emitted order, none of them twice.
   */
  function RoutedPositions(msgs: seq<Msg>, tasks: seq<Task>, u: Task): (idx: seq<nat>)
    ensures |idx| == |Routed(msgs, tasks, u)|
    ensures forall k :: 0 <= k < |idx| ==> idx[k] < |msgs| && msgs[idx[k]] == Routed(msgs, tasks, u)[k]
    ensures forall k, l :: 0 <= k < l < |idx| ==> idx[k] < idx[l]
  {
    if msgs == [] then []
    else
      var n := |msgs| - 1;
      var p := RoutedPositions(msgs[..n], tasks, u);
      assert forall k :: 0 <= k < |p| ==> msgs[p[k]] == msgs[..n][p[k]];
      p + (if Destination(msgs[n], tasks) == Some(u) then [n] else [])
  }

  /** Delivers one message: to its handle target, else to the first task with that name, else nowhere. */
  method DeliverOne(m: Msg, tasks: seq<Task>, ghost R: set<Task>)
    requires Destination(m, tasks).Some? ==> Destination(m, tasks).value in R
    modifies R`mailbox
    ensures forall u | u in R :: u.mailbox == old(u.mailbox) + (if Destination(m, tasks) == Some(u) then [m] else [])
  {
    if m.target.Handle? {
      m.target.task.Deliver(m);
    } else {
      var k := FindByName(tasks, m.target.name);
      if k.Some? {
        tasks[k.value].Deliver(m);
      }
    }
  }

  /**
   * `deliver_messages(messages, tasks)`: every message, in order, is appended to the
   * mailbox of its destination; nothing else changes.
   */
  method DeliverMessages(msgs: seq<Msg>, tasks: seq<Task>)
    modifies Recipients(msgs, tasks)`mailbox
    ensures forall u | u in Recipients(msgs, tasks) :: u.mailbox == old(u.mailbox) + Routed(msgs, tasks, u)
  {
    ghost var R := Recipients(msgs, tasks);
    var i := 0;
    while i < |msgs|
      invariant 0 <= i <= |msgs|
      invariant forall u | u in R :: u.mailbox == old(u.mailbox) + Routed(msgs[..i], tasks, u)
    {
      var m := msgs[i];
      assert msgs[..i + 1][..i] == msgs[..i];
      assert m in msgs;
      DeliverOne(m, tasks, R);
      i := i + 1;
    }
    assert msgs[..i] == msgs;
  }
}
