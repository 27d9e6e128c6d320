/** What handing messages on amounts to, seen from outside its loop: one decision for the whole
  task, taken by the state it started in.
 */
module Disposal {
  import opened Model
  import opened Tables
  import opened MessageSteps
  import opened TaskSteps
  import opened Invariant
  import opened RowChanges
  import opened MessageProofs
  import opened MessageEffects

  /** Where a task's unresolved messages end: all in the agent's open conversation, with their
    budget as it was, or all cancelled. */
  ghost predicate Settled(s: Ledger, task: Task, was: Message, after: Message, now: Time)
    requires was.recipient.ToAgent?
  {
    if CanReroute(s, task, was.recipient.agent) then
      && after == was.(task := after.task, state := MessagePending, deliveredRun := None, version := was.version + 1,
                       nextAt := if was.Exhausted() then None else Some(DeliveryAt(was, now)))
      && Some(after.task) == Conversation(s, task.origin.project, was.recipient.agent)
    else after == was.(state := MessageCancelled, deliveredRun := None, nextAt := None, version := was.version + 1)
  }

  /** Requeueing a conversation does not change which conversation an agent has. */
  lemma SameRoute(s: Ledger, s1: Ledger, e: set<TaskId>, task: Task, agent: AgentId)
    requires InvExcept(s, e) && InvExcept(s1, e) && HandsOn(s, task.id, s1)
    ensures CanReroute(s, task, agent) == CanReroute(s1, task, agent)
    ensures CanReroute(s, task, agent) ==>
              Conversation(s, task.origin.project, agent) == Conversation(s1, task.origin.project, agent)
  {
    hide IdsOk, TasksOk, RunsOk, MessagesOk, OneGeneration, OneLiveRun, GitOk, RunLimitOk, ProjectsOk, HandedOn;
    var c := Conversation(s, task.origin.project, agent);
    var c1 := Conversation(s1, task.origin.project, agent);
    if c.Some? {
      assert IsOpenConversation(s1.tasks[c.value], task.origin.project, agent);
      assert SameConversation(s1.tasks[c.value], s1.tasks[c1.value]);
    }
    if c1.Some? {
      assert IsOpenConversation(s.tasks[c1.value], task.origin.project, agent);
    }
  }

  lemma DisposeOneSettles(s: Ledger, e: set<TaskId>, task: Task, id: MessageId, now: Time)
    requires InvExcept(s, e) && Leaving(s, e, task)
    ensures DisposeOne(s, task, id, now).Committed?
    ensures var s1 := DisposeOne(s, task, id, now).ledger;
            && s1.messages.Keys == s.messages.Keys
            && (Unhandled(s, task, id) ==> Settled(s, task, s.messages[id], s1.messages[id], now))
            && (forall m :: m in s.messages && (m != id || !Unhandled(s, task, id)) ==> s1.messages[m] == s.messages[m])
  {
    hide InvExcept;
    DisposeOneKeeps(s, e, task, id, now);
    hide HandsOn, WakeConversation;
    if Unhandled(s, task, id) {
      MessageAt(s, e, id);
      RecipientExists(s, e, task, id);
      if CanReroute(s, task, s.messages[id].recipient.agent) {
        RerouteKeeps(s, e, task, id, now);
        WakesOnlyTasks(s, task, s.messages[id], now);
      }
    }
    hide CanReroute, MessageOk;
  }

  lemma WakesOnlyTasks(s: Ledger, task: Task, m: Message, now: Time)
    requires m.recipient.ToAgent? && CanReroute(s, task, m.recipient.agent)
    ensures var c := s.tasks[Conversation(s, task.origin.project, m.recipient.agent).value];
            WakeConversation(s, c, m, now).messages == s.messages
  {
  }

  /** A settled message is left alone by the rest of the loop. */
  lemma SettledStays(s: Ledger, s1: Ledger, task: Task, m: MessageId)
    requires HandsOn(s, task.id, s1) && m in s.messages && !Unhandled(s, task, m)
    ensures m in s1.messages && s1.messages[m] == s.messages[m]
  {
  }

  lemma {:induction false} DisposeAllSettles(s: Ledger, e: set<TaskId>, task: Task, ids: seq<MessageId>, now: Time, m: MessageId)
    requires InvExcept(s, e) && Leaving(s, e, task) && Unhandled(s, task, m) && m in ids
    ensures DisposeAll(s, task, ids, now).Committed?
    ensures var s1 := DisposeAll(s, task, ids, now).ledger;
            m in s1.messages && Settled(s, task, s.messages[m], s1.messages[m], now)
    decreases |ids|
  {
    hide InvExcept, Settled, HandsOn, DisposeOne, CanReroute;
    DisposeAllKeeps(s, e, task, ids, now);
    DisposeOneKeeps(s, e, task, ids[0], now);
    DisposeOneSettles(s, e, task, ids[0], now);
    var s1 := DisposeOne(s, task, ids[0], now).ledger;
    DisposeAllKeeps(s1, e, task, ids[1..], now);
    if m == ids[0] {
      SettledStays(s1, DisposeAll(s1, task, ids[1..], now).ledger, task, m);
    } else {
      DisposeAllSettles(s1, e, task, ids[1..], now, m);
      SameRoute(s, s1, e, task, s.messages[m].recipient.agent);
      SettledEither(s, s1, task, s.messages[m], DisposeAll(s1, task, ids[1..], now).ledger.messages[m], now);
    }
  }

  lemma SettledEither(s: Ledger, s1: Ledger, task: Task, was: Message, after: Message, now: Time)
    requires was.Unresolved() && Settled(s1, task, was, after, now)
    requires CanReroute(s, task, was.recipient.agent) == CanReroute(s1, task, was.recipient.agent)
    requires CanReroute(s, task, was.recipient.agent) ==>
               Conversation(s, task.origin.project, was.recipient.agent) == Conversation(s1, task.origin.project, was.recipient.agent)
    ensures Settled(s, task, was, after, now)
  {
  }

  /** Every unresolved message of a task that stops receiving runs is settled by the one decision
    above, and every other message is untouched. */
  lemma DisposeSettles(s: Ledger, e: set<TaskId>, task: Task, now: Time)
    requires InvExcept(s, e) && Leaving(s, e, task)
    ensures Dispose(s, task, now).Committed?
    ensures var s1 := Dispose(s, task, now).ledger;
            && s1.messages.Keys == s.messages.Keys
            && (forall m :: m in s.messages ==>
                  if Unhandled(s, task, m) then Settled(s, task, s.messages[m], s1.messages[m], now)
                  else s1.messages[m] == s.messages[m])
  {
    hide InvExcept, Settled, DisposeAll;
    DisposeKeeps(s, e, task, now);
    var s1 := Dispose(s, task, now).ledger;
    NamedRowsExist(s, e, task.id);
    forall m | m in s.messages
      ensures if Unhandled(s, task, m) then Settled(s, task, s.messages[m], s1.messages[m], now)
              else s1.messages[m] == s.messages[m]
    {
      if Unhandled(s, task, m) {
        MessageAt(s, e, m);
        DisposeAllSettles(s, e, task, MessagesForTask(s, task.id), now, m);
      } else {
        SettledStays(s, s1, task, m);
      }
    }
  }

  // ---- the conversations that are woken ----

  /** A task that a wake message sits on does not wait, and runs no later than the message is due. */
  ghost predicate RunsInTime(s: Ledger, m: Message) {
    m.wake && m.state == MessagePending && m.nextAt.Some? ==>
      && m.task in s.tasks && s.tasks[m.task].status != TaskWaiting
      && (s.tasks[m.task].status == TaskQueued ==> s.tasks[m.task].nextRunAt <= m.nextAt.value)
  }

  lemma InTimeStays(s: Ledger, s1: Ledger, task: Task, m: Message)
    requires HandsOn(s, task.id, s1) && RunsInTime(s, m)
    ensures RunsInTime(s1, m)
  {
    hide HandedOn;
    if m.wake && m.state == MessagePending && m.nextAt.Some? {
      assert Requeued(s.tasks[m.task], s1.tasks[m.task]);
    }
  }

  /** The row of a conversation was requeued for this moved message, and for nothing else. */
  ghost predicate WokenBy(s: Ledger, task: Task, s1: Ledger, k: TaskId, m: MessageId)
    requires k in s.tasks && k in s1.tasks
  {
    && Unhandled(s, task, m) && m in s1.messages && s1.messages[m].task == k && s1.messages[m].wake
    && s1.messages[m].state == MessagePending && s1.messages[m].nextAt.Some?
    && s1.tasks[k] == s.tasks[k].(status := TaskQueued, nextRunAt := s1.messages[m].nextAt.value,
                                  version := s1.tasks[k].version)
  }

  ghost predicate WokenForMoved(s: Ledger, task: Task, s1: Ledger) {
    && s1.tasks.Keys == s.tasks.Keys
    && forall k :: k in s.tasks ==> s1.tasks[k] == s.tasks[k] || exists m :: WokenBy(s, task, s1, k, m)
  }

  lemma OneMovedInTime(s: Ledger, e: set<TaskId>, task: Task, id: MessageId, now: Time)
    requires InvExcept(s, e) && Leaving(s, e, task)
    ensures DisposeOne(s, task, id, now).Committed?
    ensures var s1 := DisposeOne(s, task, id, now).ledger;
            WokenForMoved(s, task, s1) && (Unhandled(s, task, id) ==> id in s1.messages && RunsInTime(s1, s1.messages[id]))
  {
    hide InvExcept;
    DisposeOneKeeps(s, e, task, id, now);
    if Unhandled(s, task, id) {
      MessageAt(s, e, id);
      var agent := s.messages[id].recipient.agent;
      RecipientExists(s, e, task, id);
      if CanReroute(s, task, agent) {
        var c := Conversation(s, task.origin.project, agent).value;
        TaskAt(s, e, c);
        MovedInTime(s, task, s.messages[id], c, now);
      }
    }
    hide TaskOk, MessageOk, HandsOn, CanReroute;
  }

  lemma MovedInTime(s: Ledger, task: Task, m: Message, c: TaskId, now: Time)
    requires m.recipient.ToAgent? && c in s.tasks && s.tasks[c].id == c && s.tasks[c].AcceptsDelivery()
    requires Unhandled(s, task, m.id) && s.messages[m.id] == m
    ensures var s1 := PutMessage(WakeConversation(s, s.tasks[c], m, now), Rerouted(m, c, now));
            && WokenForMoved(s, task, s1) && RunsInTime(s1, s1.messages[m.id])
  {
    var at := DeliveryAt(m, now);
    var s1 := PutMessage(WakeConversation(s, s.tasks[c], m, now), Rerouted(m, c, now));
    if m.wake && !m.Exhausted()
       && (s.tasks[c].status == TaskWaiting || (s.tasks[c].status == TaskQueued && at < s.tasks[c].nextRunAt)) {
      assert s1.tasks == s.tasks[c := RequeuedRow(s.tasks[c], at)];
      assert s1.messages[m.id] == Rerouted(m, c, now);
      assert WokenBy(s, task, s1, c, m.id);
    } else {
      assert s1.tasks == s.tasks;
    }
    hide WokenBy, WakeConversation;
  }

  lemma WakingComposes(s: Ledger, task: Task, id: MessageId, s1: Ledger, s2: Ledger)
    requires WokenForMoved(s, task, s1) && WokenForMoved(s1, task, s2)
    requires HandsOn(s, task.id, s1) && HandsOn(s1, task.id, s2)
    requires forall m :: m in s.messages && m != id ==> s1.messages[m] == s.messages[m]
    requires !Unhandled(s1, task, id) && task.id in s.tasks && s1.tasks[task.id] == s.tasks[task.id]
    ensures WokenForMoved(s, task, s2)
  {
    forall k | k in s.tasks && s2.tasks[k] != s.tasks[k]
      ensures exists m :: WokenBy(s, task, s2, k, m)
    {
      if s2.tasks[k] != s1.tasks[k] {
        var m :| WokenBy(s1, task, s2, k, m);
        assert m != id;
        if s1.tasks[k] != s.tasks[k] {
          var first :| WokenBy(s, task, s1, k, first);
        }
        assert WokenBy(s, task, s2, k, m);
      } else {
        var m :| WokenBy(s, task, s1, k, m);
        assert m == id;
        SettledStays(s1, s2, task, id);
        assert WokenBy(s, task, s2, k, m);
      }
    }
  }

  lemma {:induction false} AllMovedInTime(s: Ledger, e: set<TaskId>, task: Task, ids: seq<MessageId>, now: Time, m: MessageId)
    requires InvExcept(s, e) && Leaving(s, e, task)
    ensures DisposeAll(s, task, ids, now).Committed?
    ensures var s1 := DisposeAll(s, task, ids, now).ledger;
            WokenForMoved(s, task, s1)
            && (Unhandled(s, task, m) && m in ids ==> m in s1.messages && RunsInTime(s1, s1.messages[m]))
    decreases |ids|
  {
    hide InvExcept, HandsOn, DisposeOne, CanReroute, WokenForMoved, RunsInTime, Settled;
    if ids == [] {
      NothingWoken(s, task);
    } else {
      DisposeOneKeeps(s, e, task, ids[0], now);
      DisposeOneSettles(s, e, task, ids[0], now);
      OneMovedInTime(s, e, task, ids[0], now);
      var s1 := DisposeOne(s, task, ids[0], now).ledger;
      DisposeAllKeeps(s1, e, task, ids[1..], now);
      AllMovedInTime(s1, e, task, ids[1..], now, m);
      var s2 := DisposeAll(s1, task, ids[1..], now).ledger;
      WakingComposes(s, task, ids[0], s1, s2);
      if Unhandled(s, task, ids[0]) {
        SettledStays(s1, s2, task, ids[0]);
        InTimeStays(s1, s2, task, s1.messages[ids[0]]);
      }
    }
  }

  lemma NothingWoken(s: Ledger, task: Task)
    ensures WokenForMoved(s, task, s)
  {
  }

  /** The open conversation messages can move to: it is not the task itself and takes deliveries, in an active
    project and for an agent that is not archived. */
  ghost predicate CanMoveTo(s: Ledger, task: Task, agent: AgentId, c: TaskId) {
    && task.origin.project in s.projects && s.projects[task.origin.project].status == ProjectActive
    && agent in s.agents && s.agents[agent] != AgentArchived
    && OpenConversationOf(s, c, task.origin.project, agent) && c != task.id && TakesDeliveries(s.tasks[c].status)
  }

  /** A message of a task that takes no more deliveries moves, with its budget, to be delivered no earlier than
    it was due and no earlier than now; or it is cancelled, when there is nowhere to move to. */
  ghost predicate MovedOrCancelled(s: Ledger, task: Task, was: Message, after: Message, now: Time)
    requires was.recipient.ToAgent?
  {
    var due := if was.state == MessagePending && was.nextAt.Some? && now <= was.nextAt.value then was.nextAt.value else now;
    if exists c :: CanMoveTo(s, task, was.recipient.agent, c) then
      && CanMoveTo(s, task, was.recipient.agent, after.task)
      && after == was.(task := after.task, state := MessagePending, deliveredRun := None, version := was.version + 1,
                       nextAt := if was.max > 0 && was.count >= was.max then None else Some(due))
    else after == was.(state := MessageCancelled, deliveredRun := None, nextAt := None, version := was.version + 1)
  }

  lemma SettledInColumns(s: Ledger, e: set<TaskId>, task: Task, was: Message, after: Message, now: Time)
    requires InvExcept(s, e) && was.Unresolved() && Settled(s, task, was, after, now)
    ensures MovedOrCancelled(s, task, was, after, now)
  {
    hide InvExcept;
    var agent := was.recipient.agent;
    ConversationIsOpen(s, task.origin.project, agent);
    forall c: TaskId | CanMoveTo(s, task, agent, c)
      ensures Conversation(s, task.origin.project, agent) == Some(c)
    {
      OneOpenConversation(s, e, task.origin.project, agent, c);
    }
    if CanReroute(s, task, agent) {
      assert CanMoveTo(s, task, agent, Conversation(s, task.origin.project, agent).value);
    }
  }

  /** What handing messages on does, in columns: every unresolved message of the task moves or is cancelled,
    no other message changes, a conversation is requeued only for a message that moved there, and then
    in time for all of them. */
  lemma DisposeMovesOrCancels(s: Ledger, e: set<TaskId>, task: Task, now: Time)
    requires InvExcept(s, e) && Leaving(s, e, task)
    ensures Dispose(s, task, now).Committed?
    ensures var s1 := Dispose(s, task, now).ledger;
            && s1 == s.(tasks := s1.tasks, messages := s1.messages) && s1.messages.Keys == s.messages.Keys
            && WokenForMoved(s, task, s1)
            && (forall m :: m in s.messages ==>
                  if Unhandled(s, task, m) then
                    MovedOrCancelled(s, task, s.messages[m], s1.messages[m], now) && RunsInTime(s1, s1.messages[m])
                  else s1.messages[m] == s.messages[m])
  {
    hide InvExcept, Settled, DisposeAll, MovedOrCancelled, RunsInTime, WokenForMoved;
    DisposeSettles(s, e, task, now);
    DisposeKeeps(s, e, task, now);
    NamedRowsExist(s, e, task.id);
    var s1 := Dispose(s, task, now).ledger;
    AllMovedInTime(s, e, task, MessagesForTask(s, task.id), now, 0);
    forall m | m in s.messages && Unhandled(s, task, m)
      ensures MovedOrCancelled(s, task, s.messages[m], s1.messages[m], now) && RunsInTime(s1, s1.messages[m])
    {
      MessageAt(s, e, m);
      SettledInColumns(s, e, task, s.messages[m], s1.messages[m], now);
      AllMovedInTime(s, e, task, MessagesForTask(s, task.id), now, m);
    }
  }

  // ---- concluding a task ----

  /** The messages of a task that left the delivering states are settled, and nothing else changes but the
    conversations they woke. */
  ghost predicate MessagesSettled(s: Ledger, task: Task, now: Time, s1: Ledger) {
    && s1 == s.(tasks := s1.tasks, messages := s1.messages) && s1.messages.Keys == s.messages.Keys
    && WokenForMoved(s, task, s1) && task.id in s1.tasks && s1.tasks[task.id] == task
    && forall m :: m in s.messages ==>
         if Unhandled(s, task, m) then
           MovedOrCancelled(s, task, s.messages[m], s1.messages[m], now) && RunsInTime(s1, s1.messages[m])
         else s1.messages[m] == s.messages[m]
  }

  /** Its messages are settled, and then its parent is told. */
  ghost predicate Concluded(s: Ledger, task: Task, now: Time, s1: Ledger) {
    exists s0 :: MessagesSettled(s, task, now, s0) && ParentIsTold(s0, task, now, s1)
  }

  lemma DisposeSettlesMessages(s: Ledger, e: set<TaskId>, task: Task, now: Time)
    requires InvExcept(s, e) && Leaving(s, e, task)
    ensures Dispose(s, task, now).Committed? && MessagesSettled(s, task, now, Dispose(s, task, now).ledger)
  {
    hide InvExcept, Dispose, MovedOrCancelled, RunsInTime, WokenForMoved, HandsOn;
    DisposeMovesOrCancels(s, e, task, now);
    DisposeKeeps(s, e, task, now);
  }

  lemma ConcludeConcludes(s: Ledger, e: set<TaskId>, task: Task, now: Time)
    requires InvExcept(s, e) && Leaving(s, e, task)
    ensures Conclude(s, task, now).Committed? && Concluded(s, task, now, Conclude(s, task, now).ledger)
    ensures var s1 := Conclude(s, task, now).ledger; task.id in s1.tasks && s1.tasks[task.id] == task
  {
    hide InvExcept, Dispose, NotifyParent, MovedOrCancelled, RunsInTime, WokenForMoved, HandsOn, ParentIsTold;
    DisposeSettlesMessages(s, e, task, now);
    DisposeKeeps(s, e, task, now);
    var s0 := Dispose(s, task, now).ledger;
    NotifyTellsParent(s0, e, task, now);
    TellingSparesChild(s0, task, now, NotifyParent(s0, task, now).ledger);
  }

  lemma TellingSparesChild(s: Ledger, task: Task, now: Time, s1: Ledger)
    requires ParentIsTold(s, task, now, s1) && task.id in s.tasks && s.tasks[task.id] == task && !task.AcceptsDelivery()
    ensures task.id in s1.tasks && s1.tasks[task.id] == task
  {
    hide AddsMessage;
  }
}
