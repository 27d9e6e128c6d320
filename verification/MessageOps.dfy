/** The message operations as they run: loops that read, change and write back one row at a time
  (task_messages.go, agent_message.go, message_delivery.go, message_actions.go, coordination.go).
 */
module MessageOps {
  import opened Model
  import opened Tables
  import opened MessageSteps
  import opened Store

  /** A message that may still be delivered makes the conversation it moves to runnable in time. */
  method QueueConversation(tx: Transaction, conversation: Task, message: Message, at: Time)
    requires Schema(tx.Rows()) && conversation.id in tx.tasks && tx.tasks[conversation.id] == conversation
    requires conversation.AcceptsDelivery()
    modifies tx`tasks
    ensures Schema(tx.Rows())
    ensures forall now :: at == DeliveryAt(message, now) ==>
              tx.Rows() == WakeConversation(old(tx.Rows()), conversation, message, now)
  {
    hide Schema;
    if message.wake && !message.Exhausted() {
      if conversation.status == TaskWaiting || (conversation.status == TaskQueued && at < conversation.nextRunAt) {
        SchemaKeepsTask(tx.Rows(), RequeuedRow(conversation, at));
        tx.UpdateTask(conversation.(status := TaskQueued, nextRunAt := at, version := conversation.version + 1),
                      conversation.version, conversation.status);
      }
    }
  }

  /** disposeUnresolvedMessages, one message of its loop. */
  method DisposeMessage(tx: Transaction, task: Task, id: MessageId, now: Time) returns (error: Option<Error>)
    requires Schema(tx.Rows()) && id in tx.messages && tx.messages[id].task == task.id && task.origin.project in tx.projects
    modifies tx`tasks, tx`messages
    ensures Did(DisposeOne(old(tx.Rows()), task, id, now), tx.Rows(), error)
    ensures Schema(tx.Rows())
    ensures id in tx.messages && tx.messages == old(tx.messages)[id := tx.messages[id]]
  {
    hide Schema, WakeConversation;
    error := None;
    SchemaKeys(tx.Rows());
    var message := tx.messages[id];
    if !message.Unresolved() {
      return;
    }
    var found := tx.FindConversation(task.origin.project, message.recipient.agent);
    if message.recipient.agent !in tx.agents {
      return Some(NotFound);
    }
    if tx.projects[task.origin.project].status == ProjectActive && tx.agents[message.recipient.agent] != AgentArchived
       && found.Some? && found.value != task.id && tx.tasks[found.value].AcceptsDelivery()
    {
      assert CanReroute(tx.Rows(), task, message.recipient.agent);
      var at := DeliveryAt(message, now);
      QueueConversation(tx, tx.tasks[found.value], message, at);
      hide CanReroute;
      var rerouted := message.(task := found.value, state := MessagePending, deliveredRun := None,
                               nextAt := if message.Exhausted() then None else Some(at), version := message.version + 1);
      SchemaKeepsMessage(tx.Rows(), rerouted);
      tx.UpdateMessage(rerouted, message.version, message.state);
    } else {
      assert !CanReroute(tx.Rows(), task, message.recipient.agent);
      hide CanReroute;
      var cancelled := message.(state := MessageCancelled, deliveredRun := None, nextAt := None, version := message.version + 1);
      SchemaKeepsMessage(tx.Rows(), cancelled);
      tx.UpdateMessage(cancelled, message.version, message.state);
    }
  }

  /** disposeUnresolvedMessages */
  method DisposeUnresolvedMessages(tx: Transaction, task: Task, now: Time) returns (error: Option<Error>)
    requires Schema(tx.Rows())
    modifies tx`tasks, tx`messages
    ensures Did(Dispose(old(tx.Rows()), task, now), tx.Rows(), error)
    ensures Schema(tx.Rows())
  {
    hide Schema, DisposeOne, MessagesBelow;
    error := None;
    if task.origin.project !in tx.projects {
      return Some(NotFound);
    }
    ghost var before := tx.Rows();
    var ids := MessagesForTask(tx.Rows(), task.id);
    for i := 0 to |ids|
      invariant error.None? && Schema(tx.Rows())
      invariant tx.Rows() == before.(tasks := tx.tasks, messages := tx.messages)
      invariant tx.messages.Keys == before.messages.Keys
      invariant forall j :: i <= j < |ids| ==> tx.messages[ids[j]] == before.messages[ids[j]]
      invariant DisposeAll(tx.Rows(), task, ids[i..], now) == DisposeAll(before, task, ids, now)
    {
      assert ids[i..][0] == ids[i] && ids[i..][1..] == ids[i + 1..];
      forall j | i < j < |ids|
        ensures ids[i] != ids[j]
      {
        MessagesDiffer(before, task.id, before.nextId, i, j);
      }
      error := DisposeMessage(tx, task, ids[i], now);
      if error.Some? {
        return;
      }
    }
    assert ids[|ids|..] == [];
  }

  /** notifyParentOfChild, for a parent that waits. */
  method QueueParent(tx: Transaction, parent: Task, now: Time)
    requires Schema(tx.Rows()) && parent.id in tx.tasks && tx.tasks[parent.id] == parent && parent.Open()
    modifies tx`tasks
    ensures Schema(tx.Rows()) && tx.Rows() == RequeueWaiting(old(tx.Rows()), parent, now)
  {
    hide Schema;
    if parent.status == TaskWaiting {
      SchemaKeepsTask(tx.Rows(), RequeuedRow(parent, now));
      tx.UpdateTask(parent.(status := TaskQueued, nextRunAt := now, version := parent.version + 1),
                    parent.version, TaskWaiting);
    }
  }

  /** notifyParentOfChild */
  method NotifyParentOfChild(tx: Transaction, child: Task, now: Time) returns (error: Option<Error>)
    requires Schema(tx.Rows())
    modifies tx`tasks, tx`messages, tx`nextId
    ensures Did(NotifyParent(old(tx.Rows()), child, now), tx.Rows(), error)
    ensures Schema(tx.Rows())
  {
    SchemaKeys(tx.Rows());
    hide Schema;
    error := None;
    if child.origin.parent.None? {
      return;
    }
    if child.origin.project !in tx.projects {
      return Some(NotFound);
    }
    var parentId := child.origin.parent.value;
    var deliveryTask, recipient := child.id, ToBoss;
    if parentId in tx.tasks {
      var parent := tx.tasks[parentId];
      deliveryTask := parentId;
      if tx.projects[child.origin.project].status == ProjectActive && parent.AcceptsDelivery() && parent.origin.assignee.Some? {
        var agent := parent.origin.assignee.value;
        if agent !in tx.agents {
          return Some(NotFound);
        }
        if tx.agents[agent] != AgentArchived {
          recipient := ToAgent(agent);
          QueueParent(tx, parent, now);
        }
      }
    }
    ghost var told := tx.Rows();
    tx.AppendMessage(child.origin.project, deliveryTask, recipient, recipient.ToAgent?,
                     if recipient.ToAgent? then 3 else 1, now);
    SchemaTakesMessage(told, tx.Rows());
  }

  /** The two calls every transaction makes after a task stopped receiving runs. */
  method ConcludeTask(tx: Transaction, task: Task, now: Time) returns (error: Option<Error>)
    requires Schema(tx.Rows())
    modifies tx`tasks, tx`messages, tx`nextId
    ensures Did(Conclude(old(tx.Rows()), task, now), tx.Rows(), error)
    ensures Schema(tx.Rows())
  {
    hide Schema, Dispose, NotifyParent;
    error := DisposeUnresolvedMessages(tx, task, now);
    if error.None? {
      error := NotifyParentOfChild(tx, task, now);
    }
  }

  // ---- sending ----

  /** wakeDeliveryTask */
  method WakeDeliveryTask(tx: Transaction, task: Task, wake: bool, now: Time)
    requires task.id in tx.tasks && tx.tasks[task.id] == task
    modifies tx`tasks
    ensures tx.Rows() == WakeDelivery(old(tx.Rows()), task, wake, now)
  {
    if wake && task.status == TaskWaiting {
      tx.UpdateTask(task.(status := TaskQueued, nextRunAt := now + CONVERSATION_WAKE_MERGE_WINDOW,
                          version := task.version + 1),
                    task.version, TaskWaiting);
    }
  }

  /** The checks of SendAgentMessage, and the target the sender named, if it takes deliveries. */
  method ExplicitTarget(
    tx: Transaction, project: ProjectId, agent: AgentId, explicit: Option<TaskId>
  ) returns (target: Option<TaskId>, error: Option<Error>)
    ensures error.Some? ==> forall wake, now :: SendToAgent(tx.Rows(), project, agent, explicit, wake, now) == Aborted(error.value)
    ensures error.None? ==>
              && project in tx.projects && tx.projects[project].status == ProjectActive
              && agent in tx.agents && tx.agents[agent] != AgentArchived
              && (explicit.Some? ==>
                    explicit.value in tx.tasks && tx.tasks[explicit.value].origin.project == project
                    && tx.tasks[explicit.value].origin.assignee == Some(agent))
              && target == (if explicit.Some? && tx.tasks[explicit.value].AcceptsDelivery() then explicit else None)
  {
    target, error := None, None;
    if project !in tx.projects || agent !in tx.agents {
      error := Some(NotFound);
    } else if tx.agents[agent] == AgentArchived || tx.projects[project].status != ProjectActive {
      error := Some(InvalidState);
    } else if explicit.Some? {
      if explicit.value !in tx.tasks {
        error := Some(NotFound);
      } else if tx.tasks[explicit.value].origin.project != project || tx.tasks[explicit.value].origin.assignee != Some(agent) {
        error := Some(ScopeDenied);
      } else if tx.tasks[explicit.value].AcceptsDelivery() {
        target := explicit;
      }
    }
  }

  /** SendAgentMessage, with agentDeliveryTask. */
  method SendAgentMessage(
    tx: Transaction, project: ProjectId, agent: AgentId, explicit: Option<TaskId>, wake: bool, now: Time
  ) returns (error: Option<Error>)
    requires Schema(tx.Rows())
    modifies tx`tasks, tx`messages, tx`nextId
    ensures Did(SendToAgent(old(tx.Rows()), project, agent, explicit, wake, now), tx.Rows(), error)
  {
    SchemaKeys(tx.Rows());
    hide Schema, WakeDelivery;
    var target;
    target, error := ExplicitTarget(tx, project, agent, explicit);
    if error.Some? {
      return;
    }
    if target.None? {
      target := tx.FindConversation(project, agent);
      if target.None? {
        var id := tx.NewId();
        tx.InsertTask(NewConversation(id, project, agent, wake, now));
        tx.AppendMessage(project, id, ToAgent(agent), wake, 3, now);
        return;
      }
      if !tx.tasks[target.value].AcceptsDelivery() {
        return Some(InvalidState);
      }
    }
    WakeDeliveryTask(tx, tx.tasks[target.value], wake, now);
    tx.AppendMessage(project, target.value, ToAgent(agent), wake, 3, now);
  }

  // ---- delivery and acknowledgement ----

  /** RecordMessagesDelivered, one message of its loop. */
  method RecordMessageDelivered(tx: Transaction, run: Run, id: MessageId, now: Time) returns (error: Option<Error>)
    requires Schema(tx.Rows())
    modifies tx`messages
    ensures Did(DeliverOne(old(tx.Rows()), run, id, now), tx.Rows(), error)
    ensures Schema(tx.Rows())
  {
    SchemaKeys(tx.Rows());
    hide Schema;
    error := None;
    if id !in tx.messages {
      return Some(NotFound);
    }
    var message := tx.messages[id];
    if message.project != run.origin.project || message.recipient != ToAgent(run.origin.agent) {
      return Some(ScopeDenied);
    }
    if message.task !in tx.tasks {
      return Some(NotFound);
    }
    if !DeliveryTarget(tx.Rows(), run, message) {
      return Some(InvalidState);
    }
    if message.state == MessageAcknowledged || (message.state == MessageDelivered && message.deliveredRun == Some(run.id)) {
      return;
    }
    if message.state != MessagePending {
      return Some(InvalidState);
    }
    if message.nextAt.None? || message.nextAt.value > now || message.Exhausted() {
      return Some(InvalidState);
    }
    var delivered := message.(state := MessageDelivered, deliveredRun := Some(run.id), count := message.count + 1,
                              version := message.version + 1);
    SchemaKeepsMessage(tx.Rows(), delivered);
    tx.UpdateMessage(delivered, message.version, MessagePending);
  }

  /** RecordMessagesDelivered */
  method RecordMessagesDelivered(
    tx: Transaction, runId: RunId, ids: seq<MessageId>, now: Time
  ) returns (error: Option<Error>)
    requires Schema(tx.Rows())
    modifies tx`messages
    ensures Did(DeliverMessages(old(tx.Rows()), runId, ids, now), tx.Rows(), error)
  {
    hide Schema, DeliverOne;
    error := None;
    if ids == [] {
      return Some(InvalidArgument);
    }
    if runId !in tx.runs {
      return Some(NotFound);
    }
    var run := tx.runs[runId];
    if !run.Live() {
      return Some(InvalidState);
    }
    if run.origin.task !in tx.tasks {
      return Some(NotFound);
    }
    var task := tx.tasks[run.origin.task];
    if task.currentRun != Some(run.id) || task.generation != run.origin.generation
       || task.origin.assignee != Some(run.origin.agent) {
      return Some(VersionConflict);
    }
    ghost var before := tx.Rows();
    for i := 0 to |ids|
      invariant error.None? && Schema(tx.Rows())
      invariant DeliverEach(tx.Rows(), run, ids[i..], now) == DeliverEach(before, run, ids, now)
    {
      assert ids[i..][0] == ids[i] && ids[i..][1..] == ids[i + 1..];
      error := RecordMessageDelivered(tx, run, ids[i], now);
      if error.Some? {
        return;
      }
    }
    assert ids[|ids|..] == [];
  }

  /** acknowledgeAgentMessages, one message of its loop. */
  method AcknowledgeAgentMessage(
    tx: Transaction, project: ProjectId, agent: AgentId, id: MessageId
  ) returns (error: Option<Error>)
    requires Schema(tx.Rows())
    modifies tx`messages
    ensures Did(AcknowledgeOne(old(tx.Rows()), project, agent, id), tx.Rows(), error)
    ensures Schema(tx.Rows())
  {
    SchemaKeys(tx.Rows());
    hide Schema;
    error := None;
    if id !in tx.messages {
      return Some(NotFound);
    }
    var message := tx.messages[id];
    if message.project != project || message.recipient != ToAgent(agent) {
      return Some(ScopeDenied);
    }
    if message.state == MessageAcknowledged {
      return;
    }
    if message.state != MessagePending && message.state != MessageDelivered {
      return Some(InvalidState);
    }
    var acknowledged := message.(state := MessageAcknowledged, version := message.version + 1);
    SchemaKeepsMessage(tx.Rows(), acknowledged);
    tx.UpdateMessage(acknowledged, message.version, message.state);
  }

  /** acknowledgeAgentMessages */
  method AcknowledgeAgentMessages(
    tx: Transaction, project: ProjectId, agent: AgentId, ids: seq<MessageId>
  ) returns (error: Option<Error>)
    requires Schema(tx.Rows())
    modifies tx`messages
    ensures Did(Acknowledge(old(tx.Rows()), project, agent, ids), tx.Rows(), error)
    ensures Schema(tx.Rows())
  {
    hide Schema, AcknowledgeOne;
    error := None;
    ghost var before := tx.Rows();
    for i := 0 to |ids|
      invariant error.None? && Schema(tx.Rows())
      invariant Acknowledge(tx.Rows(), project, agent, ids[i..]) == Acknowledge(before, project, agent, ids)
    {
      assert ids[i..][0] == ids[i] && ids[i..][1..] == ids[i + 1..];
      error := AcknowledgeAgentMessage(tx, project, agent, ids[i]);
      if error.Some? {
        return;
      }
    }
    assert ids[|ids|..] == [];
  }

  // ---- operator actions on messages ----

  /** RetryMessage: the message is written before its task is requeued. */
  method RetryMessage(tx: Transaction, id: MessageId, now: Time) returns (error: Option<Error>)
    requires Schema(tx.Rows())
    modifies tx`tasks, tx`messages
    ensures Did(MessageSteps.RetryMessage(old(tx.Rows()), id, now), tx.Rows(), error)
  {
    SchemaKeys(tx.Rows());
    hide Schema;
    error := None;
    if id !in tx.messages {
      return Some(NotFound);
    }
    var message := tx.messages[id];
    if message.recipient.ToBoss? {
      return Some(ScopeDenied);
    }
    if message.state != MessagePending {
      return Some(InvalidState);
    }
    if message.task !in tx.tasks {
      return Some(NotFound);
    }
    var task := tx.tasks[message.task];
    if !task.AcceptsDelivery() {
      return Some(InvalidState);
    }
    tx.UpdateMessage(message.(count := 0, nextAt := Some(now), version := message.version + 1), message.version, MessagePending);
    if message.wake && task.status == TaskWaiting {
      tx.UpdateTask(task.(status := TaskQueued, nextRunAt := now, version := task.version + 1), task.version, TaskWaiting);
    }
  }
}
