/** What each operation on messages does, column by column: when it is accepted, which message it makes or
  changes, what that does to a task, and that nothing else changes.
 */
module MessageEffects {
  import opened Model
  import opened Tables
  import opened MessageSteps
  import opened RunSteps
  import opened Invariant
  import opened MessageProofs

  predicate TakesDeliveries(status: TaskStatus) {
    status == TaskQueued || status == TaskRunning || status == TaskFinishing || status == TaskWaiting
  }

  predicate BudgetSpent(m: Message) {
    m.max > 0 && m.count >= m.max
  }

  /** A conversation of this agent in this project that is neither completed nor cancelled. */
  ghost predicate OpenConversationOf(s: Ledger, t: TaskId, project: ProjectId, agent: AgentId) {
    && t in s.tasks && s.tasks[t].origin.kind == TaskConversation
    && s.tasks[t].origin.project == project && s.tasks[t].origin.assignee == Some(agent)
    && s.tasks[t].status != TaskCompleted && s.tasks[t].status != TaskCancelled
  }

  lemma OneOpenConversation(s: Ledger, e: set<TaskId>, project: ProjectId, agent: AgentId, t: TaskId)
    requires InvExcept(s, e) && OpenConversationOf(s, t, project, agent)
    ensures Conversation(s, project, agent) == Some(t)
  {
    hide IdsOk, TasksOk, RunsOk, MessagesOk, OneGeneration, OneLiveRun, RunLimitOk, ProjectsOk, GitOk;
    var c := Conversation(s, project, agent);
    assert IsOpenConversation(s.tasks[t], project, agent);
    assert SameConversation(s.tasks[c.value], s.tasks[t]);
  }

  lemma ConversationIsOpen(s: Ledger, project: ProjectId, agent: AgentId)
    ensures var c := Conversation(s, project, agent);
            if c.Some? then OpenConversationOf(s, c.value, project, agent)
            else forall t :: !OpenConversationOf(s, t, project, agent)
  {
    if Conversation(s, project, agent).None? {
      forall t
        ensures !OpenConversationOf(s, t, project, agent)
      {
        assert t in s.tasks ==> !IsOpenConversation(s.tasks[t], project, agent);
      }
    }
  }

  /** Exactly one message was added: pending, never delivered, deliverable at once. */
  ghost predicate AddsMessage(
    s: Ledger, id: MessageId, project: ProjectId, task: TaskId, to: Recipient, wake: bool, max: nat, now: Time, s1: Ledger
  ) {
    && id !in s.messages && id in s1.messages && s1.messages == s.messages[id := s1.messages[id]]
    && var m := s1.messages[id];
    && m.id == id && m.project == project && m.task == task && m.recipient == to && m.wake == wake
    && m.state == MessagePending && m.deliveredRun == None && m.count == 0 && m.max == max && m.nextAt == Some(now)
    && m.version == 1
  }

  /** A task that waits is queued for this instant; any other stays as it is. */
  predicate QueuedFor(was: Task, after: Task, at: Time) {
    if was.status == TaskWaiting then after == was.(status := TaskQueued, nextRunAt := at, version := was.version + 1)
    else after == was
  }

  // ---- sending ----

  /** The sender may address this agent, and this task if it names one. */
  ghost predicate MayAddress(s: Ledger, project: ProjectId, agent: AgentId, explicit: Option<TaskId>) {
    && project in s.projects && s.projects[project].status == ProjectActive
    && agent in s.agents && s.agents[agent] != AgentArchived
    && (explicit.Some? ==>
          explicit.value in s.tasks && s.tasks[explicit.value].origin.project == project
          && s.tasks[explicit.value].origin.assignee == Some(agent))
  }

  ghost predicate NamedTaskTakes(s: Ledger, explicit: Option<TaskId>) {
    explicit.Some? && explicit.value in s.tasks && TakesDeliveries(s.tasks[explicit.value].status)
  }

  /** Where a message goes when nothing has to be made for it. */
  ghost predicate GoesTo(s: Ledger, project: ProjectId, agent: AgentId, explicit: Option<TaskId>, t: TaskId) {
    if NamedTaskTakes(s, explicit) then explicit == Some(t)
    else OpenConversationOf(s, t, project, agent) && TakesDeliveries(s.tasks[t].status)
  }

  ghost predicate NoConversation(s: Ledger, project: ProjectId, agent: AgentId) {
    forall t :: !OpenConversationOf(s, t, project, agent)
  }

  /** The message is added to an existing task, which is queued ten seconds ahead if it waits and is woken. */
  ghost predicate SentToTask(
    s: Ledger, project: ProjectId, agent: AgentId, explicit: Option<TaskId>, wake: bool, now: Time, t: TaskId, s1: Ledger
  ) {
    && t in s.tasks && t in s1.tasks && GoesTo(s, project, agent, explicit, t)
    && AddsMessage(s, s.nextId, project, t, ToAgent(agent), wake, 3, now, s1)
    && (if wake then QueuedFor(s.tasks[t], s1.tasks[t], now + 10) else s1.tasks[t] == s.tasks[t])
    && s1 == s.(tasks := s.tasks[t := s1.tasks[t]], messages := s1.messages, nextId := s.nextId + 1)
  }

  /** The message opens a conversation, which is queued at once if it is woken. */
  ghost predicate SentToNewConversation(
    s: Ledger, project: ProjectId, agent: AgentId, wake: bool, now: Time, s1: Ledger
  ) {
    var t := s.nextId;
    && NoConversation(s, project, agent) && t !in s.tasks && t in s1.tasks
    && AddsMessage(s, t + 1, project, t, ToAgent(agent), wake, 3, now, s1)
    && s1 == s.(tasks := s.tasks[t := s1.tasks[t]], messages := s1.messages, nextId := s.nextId + 2)
    && var c := s1.tasks[t];
    && c.id == t && c.origin.kind == TaskConversation && c.origin.project == project && c.origin.assignee == Some(agent)
    && c.origin.parent == None && c.origin.priority == 0 && c.origin.createdAt == now && c.origin.maxRetries == 3
    && c.origin.base == None && c.origin.source == None
    && c.status == (if wake then TaskQueued else TaskWaiting) && c.nextRunAt == now
    && c.currentRun == None && c.generation == 0 && c.retryCount == 0 && c.result == None && c.accepted == None
    && c.finalCanonical == None && c.link == None && c.pending == None && !c.sourceReleased && c.version == 1
  }

  lemma InsertAddsMessage(
    s: Ledger, s0: Ledger, project: ProjectId, task: TaskId, to: Recipient, wake: bool, max: nat, now: Time
  )
    requires s0.messages == s.messages && s0.nextId == s.nextId && s.nextId !in s.messages
    ensures var s1 := InsertMessage(s0, project, task, to, wake, max, now);
            && AddsMessage(s, s.nextId, project, task, to, wake, max, now, s1)
            && s1 == s0.(messages := s1.messages, nextId := s.nextId + 1)
  {
  }

  lemma RequeueQueues(s: Ledger, t: TaskId, at: Time)
    requires t in s.tasks && s.tasks[t].id == t
    ensures var s1 := RequeueWaiting(s, s.tasks[t], at);
            t in s1.tasks && QueuedFor(s.tasks[t], s1.tasks[t], at) && s1 == s.(tasks := s.tasks[t := s1.tasks[t]])
  {
    assert s.tasks[t := s.tasks[t]] == s.tasks;
  }

  lemma SentToTaskHolds(
    s: Ledger, project: ProjectId, agent: AgentId, explicit: Option<TaskId>, wake: bool, now: Time, t: TaskId, s1: Ledger
  )
    requires GoesTo(s, project, agent, explicit, t) && t in s.tasks && s.tasks[t].id == t && s.nextId !in s.messages
    requires s1 == InsertMessage(WakeDelivery(s, s.tasks[t], wake, now), project, t, ToAgent(agent), wake, 3, now)
    ensures SentToTask(s, project, agent, explicit, wake, now, t, s1)
  {
    hide GoesTo, InsertMessage, AddsMessage, RequeueWaiting, QueuedFor;
    RequeueQueues(s, t, now + 10);
    assert s.tasks[t := s.tasks[t]] == s.tasks;
    InsertAddsMessage(s, WakeDelivery(s, s.tasks[t], wake, now), project, t, ToAgent(agent), wake, 3, now);
  }

  lemma SentToNewHolds(s: Ledger, project: ProjectId, agent: AgentId, wake: bool, now: Time, s1: Ledger)
    requires NoConversation(s, project, agent) && s.nextId !in s.tasks && s.nextId + 1 !in s.messages
    requires s1 == InsertMessage(PutTask(s, NewConversation(s.nextId, project, agent, wake, now)).(nextId := s.nextId + 1),
                                 project, s.nextId, ToAgent(agent), wake, 3, now)
    ensures SentToNewConversation(s, project, agent, wake, now, s1)
  {
    hide NoConversation;
  }

  /** A send is accepted exactly when the address is good and there is somewhere to deliver to, or nothing yet.
    It adds one message, with the wake flag it was asked for, and wakes its task if that flag is set. */
  lemma SendAddsOneMessage(s: Ledger, project: ProjectId, agent: AgentId, explicit: Option<TaskId>, wake: bool, now: Time)
    requires Inv(s)
    ensures SendToAgent(s, project, agent, explicit, wake, now).Committed? <==>
              && MayAddress(s, project, agent, explicit)
              && ((exists t :: GoesTo(s, project, agent, explicit, t)) || NoConversation(s, project, agent))
    ensures SendToAgent(s, project, agent, explicit, wake, now).Committed? ==>
              var s1 := SendToAgent(s, project, agent, explicit, wake, now).ledger;
              if exists t :: GoesTo(s, project, agent, explicit, t)
              then exists t :: SentToTask(s, project, agent, explicit, wake, now, t, s1)
              else SentToNewConversation(s, project, agent, wake, now, s1)
  {
    hide InvExcept, InsertMessage, WakeDelivery, SentToTask, SentToNewConversation, TaskOk;
    FreshId(s, {});
    ConversationIsOpen(s, project, agent);
    var conversation := Conversation(s, project, agent);
    if MayAddress(s, project, agent, explicit) {
      var tx := SendToAgent(s, project, agent, explicit, wake, now);
      if NamedTaskTakes(s, explicit) {
        TaskAt(s, {}, explicit.value);
        assert GoesTo(s, project, agent, explicit, explicit.value);
        SentToTaskHolds(s, project, agent, explicit, wake, now, explicit.value, tx.ledger);
      } else if conversation.None? {
        assert s.nextId + 1 !in s.messages;
        assert NoConversation(s, project, agent);
        SentToNewHolds(s, project, agent, wake, now, tx.ledger);
      } else {
        TaskAt(s, {}, conversation.value);
        OnlyConversation(s, project, agent, explicit, conversation.value);
        if tx.Committed? {
          SentToTaskHolds(s, project, agent, explicit, wake, now, conversation.value, tx.ledger);
        }
      }
    }
  }

  lemma OnlyConversation(s: Ledger, project: ProjectId, agent: AgentId, explicit: Option<TaskId>, c: TaskId)
    requires Inv(s) && OpenConversationOf(s, c, project, agent) && !NamedTaskTakes(s, explicit)
    ensures !NoConversation(s, project, agent)
    ensures (exists t :: GoesTo(s, project, agent, explicit, t)) <==> TakesDeliveries(s.tasks[c].status)
    ensures TakesDeliveries(s.tasks[c].status) ==> GoesTo(s, project, agent, explicit, c)
  {
    hide InvExcept;
    OneOpenConversation(s, {}, project, agent, c);
    forall t | GoesTo(s, project, agent, explicit, t)
      ensures t == c
    {
      OneOpenConversation(s, {}, project, agent, t);
    }
    assert TakesDeliveries(s.tasks[c].status) ==> GoesTo(s, project, agent, explicit, c);
  }

  // ---- telling the parent ----

  /** The parent that can still be told: it takes deliveries, in an active project, and its agent is there. */
  ghost predicate ParentCanBeTold(s: Ledger, child: Task) {
    && child.origin.parent.Some? && child.origin.parent.value in s.tasks
    && child.origin.project in s.projects && s.projects[child.origin.project].status == ProjectActive
    && var parent := s.tasks[child.origin.parent.value];
    && TakesDeliveries(parent.status) && parent.origin.assignee.Some?
    && parent.origin.assignee.value in s.agents && s.agents[parent.origin.assignee.value] != AgentArchived
  }

  /** The end of a child is reported once, to the agent of a parent that can be told, which then runs again,
    and otherwise to the boss. */
  ghost predicate ParentIsTold(s: Ledger, child: Task, now: Time, s1: Ledger) {
    if child.origin.parent.None? then s1 == s
    else
      var p := child.origin.parent.value;
      && p in s.tasks && p in s1.tasks
      && s1 == s.(tasks := s.tasks[p := s1.tasks[p]], messages := s1.messages, nextId := s.nextId + 1)
      && if ParentCanBeTold(s, child) then
           && s.tasks[p].origin.assignee.Some?
           && AddsMessage(s, s.nextId, child.origin.project, p, ToAgent(s.tasks[p].origin.assignee.value), true, 3, now, s1)
           && QueuedFor(s.tasks[p], s1.tasks[p], now)
         else
           && AddsMessage(s, s.nextId, child.origin.project, p, ToBoss, false, 1, now, s1)
           && s1.tasks[p] == s.tasks[p]
  }

  /** What the rows a report reads are known to be. */
  ghost predicate ParentKnown(s: Ledger, child: Task) {
    && child.origin.parent.Some? && child.origin.parent.value in s.tasks && child.origin.project in s.projects
    && var parent := s.tasks[child.origin.parent.value];
    && parent.id == child.origin.parent.value
    && (parent.origin.assignee.Some? ==> parent.origin.assignee.value in s.agents)
    && s.nextId !in s.messages
  }

  lemma TellsAgent(s: Ledger, child: Task, now: Time)
    requires ParentKnown(s, child) && ParentCanBeTold(s, child)
    ensures NotifyParent(s, child, now).Committed? && ParentIsTold(s, child, now, NotifyParent(s, child, now).ledger)
  {
    hide AddsMessage, QueuedFor, RequeueWaiting, InsertMessage;
    var p := child.origin.parent.value;
    RequeueQueues(s, p, now);
    InsertAddsMessage(s, RequeueWaiting(s, s.tasks[p], now), child.origin.project, p,
                      ToAgent(s.tasks[p].origin.assignee.value), true, 3, now);
  }

  lemma TellsBoss(s: Ledger, child: Task, now: Time)
    requires ParentKnown(s, child) && !ParentCanBeTold(s, child)
    ensures NotifyParent(s, child, now).Committed? && ParentIsTold(s, child, now, NotifyParent(s, child, now).ledger)
  {
    hide AddsMessage, QueuedFor, RequeueWaiting, InsertMessage;
    var p := child.origin.parent.value;
    assert s.tasks[p := s.tasks[p]] == s.tasks;
    InsertAddsMessage(s, s, child.origin.project, p, ToBoss, false, 1, now);
  }

  lemma NotifyTellsParent(s: Ledger, e: set<TaskId>, child: Task, now: Time)
    requires InvExcept(s, e) && child.id in s.tasks && s.tasks[child.id] == child
    ensures NotifyParent(s, child, now).Committed? && ParentIsTold(s, child, now, NotifyParent(s, child, now).ledger)
  {
    hide InvExcept, ParentCanBeTold, TaskOk;
    FreshId(s, e);
    NamedRowsExist(s, e, child.id);
    if child.origin.parent.Some? {
      NamedRowsExist(s, e, child.origin.parent.value);
      TaskAt(s, e, child.origin.parent.value);
      hide NotifyParent, ParentIsTold;
      if ParentCanBeTold(s, child) {
        TellsAgent(s, child, now);
      } else {
        TellsBoss(s, child, now);
      }
    }
  }

  // ---- delivery ----

  /** The run may get this message: it is for its agent, on a task that takes deliveries and is the run's own
    or the agent's conversation. */
  ghost predicate MeantFor(s: Ledger, run: Run, id: MessageId) {
    && id in s.messages && s.messages[id].project == run.origin.project
    && s.messages[id].recipient == ToAgent(run.origin.agent) && s.messages[id].task in s.tasks
    && var task := s.tasks[s.messages[id].task];
    && TakesDeliveries(task.status)
    && (task.id == run.origin.task
        || (task.origin.kind == TaskConversation && task.origin.project == run.origin.project
            && task.origin.assignee == Some(run.origin.agent)))
  }

  /** It is due, or there is nothing left to do for it. */
  predicate DueFor(m: Message, run: RunId, now: Time) {
    || m.state == MessageAcknowledged
    || (m.state == MessageDelivered && m.deliveredRun == Some(run))
    || (m.state == MessagePending && m.nextAt.Some? && m.nextAt.value <= now && !BudgetSpent(m))
  }

  ghost predicate MayDeliver(s: Ledger, run: Run, id: MessageId, now: Time) {
    MeantFor(s, run, id) && DueFor(s.messages[id], run.id, now)
  }

  /** Each pending message of the list is delivered once, however often it is listed; the others stay. */
  ghost predicate Delivers(s: Ledger, run: RunId, ids: seq<MessageId>, s1: Ledger) {
    && s1 == s.(messages := s1.messages) && s1.messages.Keys == s.messages.Keys
    && forall m :: m in s.messages ==>
         s1.messages[m] == if m in ids && s.messages[m].state == MessagePending
                           then s.messages[m].(state := MessageDelivered, deliveredRun := Some(run),
                                               count := s.messages[m].count + 1, version := s.messages[m].version + 1)
                           else s.messages[m]
  }

  ghost predicate KeyedMessages(s: Ledger) {
    forall m :: m in s.messages ==> s.messages[m].id == m
  }

  lemma DeliverOneDelivers(s: Ledger, run: Run, id: MessageId, now: Time)
    requires KeyedMessages(s)
    ensures DeliverOne(s, run, id, now).Committed? <==> MayDeliver(s, run, id, now)
    ensures DeliverOne(s, run, id, now).Committed? ==>
              Delivers(s, run.id, [id], DeliverOne(s, run, id, now).ledger) && KeyedMessages(DeliverOne(s, run, id, now).ledger)
  {
  }

  lemma DeliveryStaysPossible(s: Ledger, run: Run, id: MessageId, now: Time, s1: Ledger, other: MessageId)
    requires MayDeliver(s, run, id, now) && Delivers(s, run.id, [id], s1)
    ensures MayDeliver(s1, run, other, now) <==> MayDeliver(s, run, other, now)
  {
  }

  lemma DeliversBoth(s: Ledger, run: RunId, ids: seq<MessageId>, s1: Ledger, s2: Ledger)
    requires ids != [] && Delivers(s, run, [ids[0]], s1) && Delivers(s1, run, ids[1..], s2)
    ensures Delivers(s, run, ids, s2)
  {
    assert ids == [ids[0]] + ids[1..];
  }

  lemma {:induction false} DeliverEachDelivers(s: Ledger, run: Run, ids: seq<MessageId>, now: Time)
    requires KeyedMessages(s)
    ensures DeliverEach(s, run, ids, now).Committed? <==> forall id :: id in ids ==> MayDeliver(s, run, id, now)
    ensures DeliverEach(s, run, ids, now).Committed? ==> Delivers(s, run.id, ids, DeliverEach(s, run, ids, now).ledger)
    decreases |ids|
  {
    hide DeliverOne, MayDeliver, KeyedMessages;
    if ids != [] {
      DeliverOneDelivers(s, run, ids[0], now);
      assert ids == [ids[0]] + ids[1..];
      if MayDeliver(s, run, ids[0], now) {
        var s1 := DeliverOne(s, run, ids[0], now).ledger;
        DeliverEachDelivers(s1, run, ids[1..], now);
        forall id | id in ids[1..]
          ensures MayDeliver(s1, run, id, now) <==> MayDeliver(s, run, id, now)
        {
          DeliveryStaysPossible(s, run, ids[0], now, s1, id);
        }
        if DeliverEach(s1, run, ids[1..], now).Committed? {
          DeliversBoth(s, run.id, ids, s1, DeliverEach(s1, run, ids[1..], now).ledger);
        }
        hide Delivers;
      }
    }
  }

  /** A list of messages is delivered as a whole, to a live run whose task was not taken from it, and only if
    each of them may be; each delivery spends one of its budget. */
  lemma DeliveryIsAllOrNothing(s: Ledger, run: RunId, ids: seq<MessageId>, now: Time)
    requires Inv(s)
    ensures DeliverMessages(s, run, ids, now).Committed? <==>
              && ids != [] && run in s.runs && (s.runs[run].state == RunStarting || s.runs[run].state == RunActive)
              && s.runs[run].origin.task in s.tasks
              && s.tasks[s.runs[run].origin.task].generation == s.runs[run].origin.generation
              && forall id :: id in ids ==> MayDeliver(s, s.runs[run], id, now)
    ensures DeliverMessages(s, run, ids, now).Committed? ==>
              Delivers(s, run, ids, DeliverMessages(s, run, ids, now).ledger)
  {
    hide InvExcept, DeliverEach, MayDeliver, Delivers, RunFits, KeyedMessages;
    MessagesAreKeyed(s);
    if run in s.runs {
      RunAt(s, {}, run);
      DeliverEachDelivers(s, s.runs[run], ids, now);
    }
  }

  lemma MessagesAreKeyed(s: Ledger)
    requires Inv(s)
    ensures KeyedMessages(s)
  {
    hide InvExcept;
    forall m | m in s.messages
      ensures s.messages[m].id == m
    {
      MessageAt(s, {}, m);
    }
  }

  // ---- acknowledgement ----

  ghost predicate MayAcknowledge(s: Ledger, project: ProjectId, agent: AgentId, id: MessageId) {
    && id in s.messages && s.messages[id].project == project && s.messages[id].recipient == ToAgent(agent)
    && s.messages[id].state != MessageCancelled
  }

  /** Each message of the list is acknowledged; nothing else about it changes, and the others stay. */
  ghost predicate Acknowledges(s: Ledger, ids: seq<MessageId>, s1: Ledger) {
    && s1 == s.(messages := s1.messages) && s1.messages.Keys == s.messages.Keys
    && forall m :: m in s.messages ==>
         s1.messages[m] == if m in ids && s.messages[m].state != MessageAcknowledged
                           then s.messages[m].(state := MessageAcknowledged, version := s.messages[m].version + 1)
                           else s.messages[m]
  }

  lemma AcknowledgeOneAcknowledges(s: Ledger, project: ProjectId, agent: AgentId, id: MessageId)
    requires KeyedMessages(s)
    ensures AcknowledgeOne(s, project, agent, id).Committed? <==> MayAcknowledge(s, project, agent, id)
    ensures AcknowledgeOne(s, project, agent, id).Committed? ==>
              Acknowledges(s, [id], AcknowledgeOne(s, project, agent, id).ledger)
              && KeyedMessages(AcknowledgeOne(s, project, agent, id).ledger)
  {
  }

  lemma AcknowledgesBoth(s: Ledger, ids: seq<MessageId>, s1: Ledger, s2: Ledger)
    requires ids != [] && Acknowledges(s, [ids[0]], s1) && Acknowledges(s1, ids[1..], s2)
    ensures Acknowledges(s, ids, s2)
  {
    assert ids == [ids[0]] + ids[1..];
  }

  lemma AcknowledgeStaysPossible(s: Ledger, project: ProjectId, agent: AgentId, ids: seq<MessageId>, s1: Ledger, id: MessageId)
    requires Acknowledges(s, ids, s1)
    requires forall m :: m in ids ==> MayAcknowledge(s, project, agent, m)
    ensures MayAcknowledge(s1, project, agent, id) <==> MayAcknowledge(s, project, agent, id)
  {
  }

  /** A list is acknowledged as a whole, by the recipient of each of them, unless one was cancelled. */
  lemma {:induction false} AcknowledgeIsAllOrNothing(s: Ledger, project: ProjectId, agent: AgentId, ids: seq<MessageId>)
    requires KeyedMessages(s)
    ensures Acknowledge(s, project, agent, ids).Committed? <==>
              forall id :: id in ids ==> MayAcknowledge(s, project, agent, id)
    ensures Acknowledge(s, project, agent, ids).Committed? ==>
              Acknowledges(s, ids, Acknowledge(s, project, agent, ids).ledger)
    decreases |ids|
  {
    hide AcknowledgeOne, MayAcknowledge, KeyedMessages;
    if ids != [] {
      AcknowledgeOneAcknowledges(s, project, agent, ids[0]);
      assert ids == [ids[0]] + ids[1..];
      if MayAcknowledge(s, project, agent, ids[0]) {
        var s1 := AcknowledgeOne(s, project, agent, ids[0]).ledger;
        AcknowledgeIsAllOrNothing(s1, project, agent, ids[1..]);
        forall id | id in ids[1..]
          ensures MayAcknowledge(s1, project, agent, id) <==> MayAcknowledge(s, project, agent, id)
        {
          AcknowledgeStaysPossible(s, project, agent, [ids[0]], s1, id);
        }
        if Acknowledge(s1, project, agent, ids[1..]).Committed? {
          AcknowledgesBoth(s, ids, s1, Acknowledge(s1, project, agent, ids[1..]).ledger);
        }
        hide Acknowledges;
      }
    }
  }

  // ---- retry ----

  /** A pending agent message on a task that takes deliveries gets its budget back, is due now, and wakes a
    waiting task if it is a wake message. */
  lemma RetryRenewsMessage(s: Ledger, id: MessageId, now: Time)
    requires Inv(s)
    ensures RetryMessage(s, id, now).Committed? <==>
              id in s.messages && s.messages[id].recipient.ToAgent? && s.messages[id].state == MessagePending
    ensures RetryMessage(s, id, now).Committed? ==>
              var s1 := RetryMessage(s, id, now).ledger; var was := s.messages[id]; var t := was.task;
              && t in s.tasks && t in s1.tasks && id in s1.messages
              && s1 == s.(tasks := s.tasks[t := s1.tasks[t]], messages := s.messages[id := s1.messages[id]])
              && s1.messages[id] == was.(count := 0, nextAt := Some(now), version := was.version + 1)
              && (if was.wake then QueuedFor(s.tasks[t], s1.tasks[t], now) else s1.tasks[t] == s.tasks[t])
  {
    hide InvExcept, TaskOk, Accounted;
    if id in s.messages {
      MessageAt(s, {}, id);
      var t := s.messages[id].task;
      if t in s.tasks {
        TaskAt(s, {}, t);
        assert s.tasks[t := s.tasks[t]] == s.tasks;
      }
    }
  }
}
