/** How messages are sent, delivered, acknowledged, retried and rerouted
  (task_messages.go, agent_message.go, message_delivery.go, message_actions.go,
  coordination.go and message.go in internal/core).
 */
module MessageSteps {
  import opened Model
  import opened Tables

  const CONVERSATION_WAKE_MERGE_WINDOW: nat := 10

  // ---- leaving a task that no longer receives runs ----

  ghost predicate CanReroute(s: Ledger, task: Task, agent: AgentId) {
    && ProjectIsActive(s, task.origin.project)
    && agent in s.agents && s.agents[agent] != AgentArchived
    && var conversation := Conversation(s, task.origin.project, agent);
    && conversation.Some? && conversation.value != task.id
    && s.tasks[conversation.value].AcceptsDelivery()
  }

  function DeliveryAt(message: Message, now: Time): (at: Time)
    ensures now <= at
  {
    if message.state == MessageDelivered || message.nextAt.None? || message.nextAt.value < now then now
    else message.nextAt.value
  }

  function RequeuedRow(task: Task, at: Time): Task {
    task.(status := TaskQueued, nextRunAt := at, version := task.version + 1)
  }

  /** A rerouted wake message makes its new conversation runnable in time. */
  function WakeConversation(s: Ledger, conversation: Task, message: Message, now: Time): Ledger {
    var at := DeliveryAt(message, now);
    if message.wake && !message.Exhausted()
       && (conversation.status == TaskWaiting
           || (conversation.status == TaskQueued && at < conversation.nextRunAt))
    then
      PutTask(s, RequeuedRow(conversation, at))
    else s
  }

  function Rerouted(message: Message, conversation: TaskId, now: Time): Message {
    message.(
      task := conversation, state := MessagePending, deliveredRun := None,
      nextAt := if message.Exhausted() then None else Some(DeliveryAt(message, now)),
      version := message.version + 1)
  }

  function CancelledMessage(message: Message): Message {
    message.(state := MessageCancelled, deliveredRun := None, nextAt := None, version := message.version + 1)
  }

  /** One turn of the disposeUnresolvedMessages loop. */
  ghost function DisposeOne(s: Ledger, task: Task, id: MessageId, now: Time): Tx {
    if id !in s.messages || s.messages[id].task != task.id || !s.messages[id].Unresolved() then Committed(s)
    else
      var message := s.messages[id];
      var agent := message.recipient.agent;
      if agent !in s.agents then Aborted(NotFound)
      else if CanReroute(s, task, agent) then
        var conversation := s.tasks[Conversation(s, task.origin.project, agent).value];
        Committed(PutMessage(WakeConversation(s, conversation, message, now),
                             Rerouted(message, conversation.id, now)))
      else
        Committed(PutMessage(s, CancelledMessage(message)))
  }

  ghost function DisposeAll(s: Ledger, task: Task, ids: seq<MessageId>, now: Time): Tx
    decreases |ids|
  {
    if ids == [] then Committed(s)
    else
      var s1 :- DisposeOne(s, task, ids[0], now);
      DisposeAll(s1, task, ids[1..], now)
  }

  /** disposeUnresolvedMessages */
  ghost function Dispose(s: Ledger, task: Task, now: Time): Tx {
    if task.origin.project !in s.projects then Aborted(NotFound)
    else DisposeAll(s, task, MessagesForTask(s, task.id), now)
  }

  /** The parent of a finished child, if it can still be told by an agent message. */
  predicate ParentListens(s: Ledger, child: Task) {
    && child.origin.parent.Some? && child.origin.parent.value in s.tasks
    && ProjectIsActive(s, child.origin.project)
    && var parent := s.tasks[child.origin.parent.value];
    && parent.AcceptsDelivery() && parent.origin.assignee.Some?
  }

  function RequeueWaiting(s: Ledger, task: Task, at: Time): Ledger {
    if task.status == TaskWaiting then PutTask(s, RequeuedRow(task, at)) else s
  }

  /** notifyParentOfChild */
  function NotifyParent(s: Ledger, child: Task, now: Time): Tx {
    if child.origin.parent.None? then Committed(s)
    else if child.origin.project !in s.projects then Aborted(NotFound)
    else
      var parentId := child.origin.parent.value;
      if ParentListens(s, child) && s.tasks[parentId].origin.assignee.value !in s.agents then Aborted(NotFound)
      else if ParentListens(s, child) && s.agents[s.tasks[parentId].origin.assignee.value] != AgentArchived then
        var parent := s.tasks[parentId];
        Committed(InsertMessage(RequeueWaiting(s, parent, now), child.origin.project, parentId,
                                ToAgent(parent.origin.assignee.value), true, 3, now))
      else
        Committed(InsertMessage(s, child.origin.project, if parentId in s.tasks then parentId else child.id,
                                ToBoss, false, 1, now))
  }

  /** A task that just stopped receiving runs hands its messages on and reports to its parent. */
  ghost function Conclude(s: Ledger, task: Task, now: Time): Tx {
    var s1 :- Dispose(s, task, now);
    NotifyParent(s1, task, now)
  }

  // ---- sending ----

  function WakeDelivery(s: Ledger, task: Task, wake: bool, now: Time): Ledger {
    if wake then RequeueWaiting(s, task, now + CONVERSATION_WAKE_MERGE_WINDOW) else s
  }

  function NewConversation(id: TaskId, project: ProjectId, agent: AgentId, wake: bool, now: Time): Task {
    Task(id, Origin(project, TaskConversation, None, Some(agent), 0, now, 3, None, None, 0),
         if wake then TaskQueued else TaskWaiting, None, 0, now, 0, None, None, None, None, None, false, 1)
  }

  /** SendAgentMessage and sendBossAgentMessage for an agent recipient, with agentDeliveryTask. */
  ghost function SendToAgent(
    s: Ledger, project: ProjectId, agent: AgentId, explicit: Option<TaskId>, wake: bool, now: Time
  ): Tx {
    if project !in s.projects || agent !in s.agents then Aborted(NotFound)
    else if s.agents[agent] == AgentArchived || s.projects[project].status != ProjectActive then Aborted(InvalidState)
    else if explicit.Some? && explicit.value !in s.tasks then Aborted(NotFound)
    else if explicit.Some? && (s.tasks[explicit.value].origin.project != project
                               || s.tasks[explicit.value].origin.assignee != Some(agent))
    then Aborted(ScopeDenied)
    else if explicit.Some? && s.tasks[explicit.value].AcceptsDelivery() then
      var target := s.tasks[explicit.value];
      Committed(InsertMessage(WakeDelivery(s, target, wake, now), project, target.id, ToAgent(agent), wake, 3, now))
    else
      var conversation := Conversation(s, project, agent);
      if conversation.None? then
        var created := NewConversation(s.nextId, project, agent, wake, now);
        Committed(InsertMessage(PutTask(s, created).(nextId := s.nextId + 1), project, created.id,
                                ToAgent(agent), wake, 3, now))
      else
        var target := s.tasks[conversation.value];
        if !target.AcceptsDelivery() then Aborted(InvalidState)
        else
          Committed(InsertMessage(WakeDelivery(s, target, wake, now), project, target.id,
                                  ToAgent(agent), wake, 3, now))
  }

  // ---- delivery and acknowledgement ----

  predicate DeliveryTarget(s: Ledger, run: Run, message: Message) {
    && message.task in s.tasks
    && var task := s.tasks[message.task];
    && (task.id == run.origin.task
        || (task.origin.kind == TaskConversation && task.origin.project == run.origin.project
            && task.origin.assignee == Some(run.origin.agent)))
    && task.AcceptsDelivery()
  }

  /** One turn of the RecordMessagesDelivered loop. */
  function DeliverOne(s: Ledger, run: Run, id: MessageId, now: Time): Tx {
    if id !in s.messages then Aborted(NotFound)
    else
      var message := s.messages[id];
      if message.project != run.origin.project || message.recipient != ToAgent(run.origin.agent) then Aborted(ScopeDenied)
      else if message.task !in s.tasks then Aborted(NotFound)
      else if !DeliveryTarget(s, run, message) then Aborted(InvalidState)
      else if message.state == MessageAcknowledged
              || (message.state == MessageDelivered && message.deliveredRun == Some(run.id))
      then Committed(s)
      else if message.state != MessagePending then Aborted(InvalidState)
      else if message.nextAt.None? || message.nextAt.value > now || message.Exhausted() then Aborted(InvalidState)
      else
        Committed(PutMessage(s, message.(state := MessageDelivered, deliveredRun := Some(run.id),
                                         count := message.count + 1, version := message.version + 1)))
  }

  function DeliverEach(s: Ledger, run: Run, ids: seq<MessageId>, now: Time): Tx
    decreases |ids|
  {
    if ids == [] then Committed(s)
    else
      var s1 :- DeliverOne(s, run, ids[0], now);
      DeliverEach(s1, run, ids[1..], now)
  }

  /** RecordMessagesDelivered */
  function DeliverMessages(s: Ledger, runId: RunId, ids: seq<MessageId>, now: Time): Tx {
    if ids == [] then Aborted(InvalidArgument)
    else if runId !in s.runs then Aborted(NotFound)
    else
      var run := s.runs[runId];
      if !run.Live() then Aborted(InvalidState)
      else if run.origin.task !in s.tasks then Aborted(NotFound)
      else
        var task := s.tasks[run.origin.task];
        if task.currentRun != Some(run.id) || task.generation != run.origin.generation
           || task.origin.assignee != Some(run.origin.agent)
        then Aborted(VersionConflict)
        else DeliverEach(s, run, ids, now)
  }

  /** One turn of the acknowledgeAgentMessages loop. */
  function AcknowledgeOne(s: Ledger, project: ProjectId, agent: AgentId, id: MessageId): Tx {
    if id !in s.messages then Aborted(NotFound)
    else
      var message := s.messages[id];
      if message.project != project || message.recipient != ToAgent(agent) then Aborted(ScopeDenied)
      else if message.state == MessageAcknowledged then Committed(s)
      else if !message.Unresolved() then Aborted(InvalidState)
      else Committed(PutMessage(s, message.(state := MessageAcknowledged, version := message.version + 1)))
  }

  /** acknowledgeAgentMessages */
  function Acknowledge(s: Ledger, project: ProjectId, agent: AgentId, ids: seq<MessageId>): Tx
    decreases |ids|
  {
    if ids == [] then Committed(s)
    else
      var s1 :- AcknowledgeOne(s, project, agent, ids[0]);
      Acknowledge(s1, project, agent, ids[1..])
  }

  // ---- operator actions on messages ----

  function RetryEnabled(message: Message, now: Time): Message {
    message.(count := 0, nextAt := Some(now), version := message.version + 1)
  }

  /** RetryMessage */
  function RetryMessage(s: Ledger, id: MessageId, now: Time): Tx {
    if id !in s.messages then Aborted(NotFound)
    else
      var message := s.messages[id];
      if message.recipient.ToBoss? then Aborted(ScopeDenied)
      else if message.state != MessagePending then Aborted(InvalidState)
      else if message.task !in s.tasks then Aborted(NotFound)
      else
        var task := s.tasks[message.task];
        if !task.AcceptsDelivery() then Aborted(InvalidState)
        else
          var s1 := if message.wake then RequeueWaiting(s, task, now) else s;
          Committed(PutMessage(s1, RetryEnabled(message, now)))
  }
}
