/** Creating tasks and the operator's actions on them
  (task_create.go, task_actions.go, task_complete.go, task.go and gc.go in internal/core).
 */
module TaskSteps {
  import opened Commits
  import opened Model
  import opened Tables
  import opened MessageSteps
  import opened RunSteps

  /** sameness of a source with its linked integration task (integrationSourceFence in git_reconcile.go). */
  predicate IntegrationSourceFence(source: Task, integration: Task) {
    && integration.origin.kind == TaskIntegration
    && integration.origin.source.Some?
    && source.status == TaskSubmitted
    && source.version == integration.origin.acceptVersion
    && source.link == Some(integration.id)
    && source.result == Some(integration.origin.source.value.result)
    && source.accepted.Some? && source.accepted == integration.origin.assignee
  }

  // ---- creation ----

  /** Who asks for a new task: the operator, or the agent of an active run. */
  datatype Creator = Boss | ByRun(run: RunId)

  /** validateSourceTask, with the version the first transaction saw. */
  predicate UsableSource(s: Ledger, project: ProjectId, source: TaskId, seenVersion: nat) {
    && source in s.tasks
    && var row := s.tasks[source];
    && row.version == seenVersion
    && row.origin.project == project
    && (row.status == TaskSubmitted || row.status == TaskCompleted)
    && row.result.Some?
  }

  function SourceOf(s: Ledger, source: Option<TaskId>): (r: Option<Source>)
    requires source.Some? ==> source.value in s.tasks && s.tasks[source.value].result.Some?
  {
    if source.None? then None else Some(Source(source.value, s.tasks[source.value].result.value))
  }

  /** The second transaction of createWorkTask with insertWorkTask. A task without an assigned
    agent is a human's: it waits for CompleteTask and never gets a run. */
  function CreateTask(
    s: Ledger, creator: Creator, project: ProjectId, seenVersion: nat, assignee: Option<AgentId>, priority: int,
    maxRetries: nat, base: Commit, source: Option<TaskId>, sourceVersion: nat, now: Time
  ): Tx {
    if creator.ByRun? && !Authenticated(s, creator.run) then Aborted(StaleRun)
    else if creator.ByRun? && s.runs[creator.run].origin.project != project then Aborted(ScopeDenied)
    else if project !in s.projects then Aborted(NotFound)
    else if s.projects[project].status != ProjectActive then Aborted(InvalidState)
    else if creator.ByRun? && s.projects[project].version != seenVersion then Aborted(VersionConflict)
    else if source.Some? && !UsableSource(s, project, source.value, sourceVersion) then Aborted(VersionConflict)
    else if assignee.Some? && assignee.value !in s.agents then Aborted(NotFound)
    else if assignee.Some? && s.agents[assignee.value] == AgentArchived then Aborted(InvalidState)
    else
      var parent := if creator.ByRun? then Some(s.runs[creator.run].origin.task) else None;
      var origin := Origin(project, TaskWork, parent, assignee, priority, now, maxRetries,
                           Some(base), SourceOf(s, source), 0);
      var task := Task(s.nextId, origin, if assignee.Some? then TaskQueued else TaskWaiting,
                       None, 0, now, 0, None, None, None, None, None, false, 1);
      Committed(PutTask(s, task).(nextId := s.nextId + 1))
  }

  // ---- wake, retry, rework ----

  predicate NeedsRetry(message: Message, task: TaskId) {
    message.task == task && message.recipient.ToAgent? && message.state == MessagePending && message.Exhausted()
  }

  /** The exhausted messages of the task may be delivered again. */
  function Reenabled(messages: map<MessageId, Message>, task: TaskId, now: Time): map<MessageId, Message> {
    map m | m in messages :: if NeedsRetry(messages[m], task) then RetryEnabled(messages[m], now) else messages[m]
  }

  /** WakeTask */
  function WakeTask(s: Ledger, id: TaskId, now: Time): Tx {
    if id !in s.tasks then Aborted(NotFound)
    else
      var task := s.tasks[id];
      if !task.ActionAvailable() then Aborted(ActionInProgress)
      else if task.origin.assignee.None? || task.status != TaskWaiting then Aborted(InvalidState)
      else
        Committed(PutTask(s, task.(status := TaskQueued, nextRunAt := now, version := task.version + 1))
                  .(messages := Reenabled(s.messages, id, now)))
  }

  /** RetryTask */
  function RetryTask(s: Ledger, id: TaskId, now: Time): Tx {
    if id !in s.tasks then Aborted(NotFound)
    else
      var task := s.tasks[id];
      if !task.ActionAvailable() then Aborted(ActionInProgress)
      else if task.status != TaskFailed then Aborted(InvalidState)
      else
        Committed(PutTask(s, task.(status := TaskQueued, currentRun := None, generation := task.generation + 1,
                                   nextRunAt := now, pending := None, version := task.version + 1)))
  }

  /** ReworkTask */
  function ReworkTask(s: Ledger, id: TaskId, now: Time): Tx {
    if id !in s.tasks then Aborted(NotFound)
    else
      var task := s.tasks[id];
      if task.origin.kind == TaskConversation then Aborted(InvalidState)
      else if !task.ActionAvailable() then Aborted(ActionInProgress)
      else if task.status != TaskSubmitted then Aborted(InvalidState)
      else
        Committed(PutTask(s, task.(status := TaskQueued, nextRunAt := now, accepted := None, pending := None,
                                   version := task.version + 1)))
  }

  // ---- cancel ----

  /** Cancelling an integration task gives its source back to the operator. */
  function ReleaseSource(s: Ledger, integration: Task): Tx {
    if integration.origin.kind != TaskIntegration || integration.origin.source.None? then Committed(s)
    else if integration.origin.source.value.task !in s.tasks then Aborted(NotFound)
    else
      var source := s.tasks[integration.origin.source.value.task];
      if source.pending.Some? then Aborted(ActionInProgress)
      else if !IntegrationSourceFence(source, integration) then Aborted(VersionConflict)
      else Committed(PutTask(s, source.(link := None, accepted := None, version := source.version + 1)))
  }

  /** A live run of the cancelled task is told to stop and loses its token. */
  function StopCurrentRun(s: Ledger, task: Task, reason: string): Tx {
    if task.currentRun.None? then Committed(s)
    else if task.currentRun.value !in s.runs then Aborted(NotFound)
    else
      var run := s.runs[task.currentRun.value];
      if !run.Live() || (run.stop.Some? && run.tokenRevoked) then Committed(s)
      else
        var stop := if run.stop.Some? then run.stop else Some(Stop(reason, s.nextId));
        Committed(PutRun(s, run.(stop := stop, tokenRevoked := true, version := run.version + 1))
                  .(nextId := if run.stop.Some? then s.nextId else s.nextId + 1))
  }

  function CancelledRow(s: Ledger, task: Task): Task {
    var keepRun := task.currentRun.Some? && task.currentRun.value in s.runs && s.runs[task.currentRun.value].Live();
    task.(status := TaskCancelled, currentRun := if keepRun then task.currentRun else None,
          generation := task.generation + 1, version := task.version + 1)
  }

  /** CancelTask */
  ghost function CancelTask(s: Ledger, id: TaskId, reason: string, now: Time): Tx {
    if id !in s.tasks then Aborted(NotFound)
    else
      var task := s.tasks[id];
      if !task.ActionAvailable() then Aborted(ActionInProgress)
      else if !ValidTaskTransition(task.origin.kind, task.status, TaskCancelled) then Aborted(InvalidState)
      else
        var s1 :- ReleaseSource(s, task);
        var s2 :- StopCurrentRun(s1, task, reason);
        var row := CancelledRow(s2, task);
        Conclude(PutTask(s2, row), row, now)
  }

  // ---- closing without a captured result ----

  /** CompleteTask: a human confirms the task that waits for them. */
  function CompleteTask(s: Ledger, id: TaskId, now: Time): Tx {
    if id !in s.tasks then Aborted(NotFound)
    else
      var task := s.tasks[id];
      if task.currentRun.Some? || task.origin.assignee.Some? || task.status != TaskWaiting then Aborted(InvalidState)
      else if task.pending.Some? then Aborted(ActionInProgress)
      else
        var row := task.(status := TaskCompleted, result := None, version := task.version + 1);
        NotifyParent(PutTask(s, row), row, now)
  }

  /** The messages of a closed conversation are cancelled; unlike a disposed message they
    keep the delivery columns they had. */
  function ClosedMessages(messages: map<MessageId, Message>, task: TaskId): map<MessageId, Message> {
    map m | m in messages ::
      if messages[m].task == task && messages[m].Unresolved()
      then messages[m].(state := MessageCancelled, version := messages[m].version + 1)
      else messages[m]
  }

  /** CloseConversation */
  function CloseConversation(s: Ledger, id: TaskId): Tx {
    if id !in s.tasks then Aborted(NotFound)
    else
      var task := s.tasks[id];
      if task.origin.kind != TaskConversation then Aborted(InvalidState)
      else if !task.ActionAvailable() then Aborted(ActionInProgress)
      else if !ValidTaskTransition(task.origin.kind, task.status, TaskCompleted) then Aborted(InvalidState)
      else
        Committed(PutTask(s, task.(status := TaskCompleted, version := task.version + 1))
                  .(messages := ClosedMessages(s.messages, id)))
  }

  /** releaseSourceReference: once the workspace of a closed task is gone, the ref of its source is no
    longer held. */
  function ReleaseSourceReference(s: Ledger, id: TaskId): Tx {
    if id !in s.tasks then Aborted(NotFound)
    else
      var task := s.tasks[id];
      if task.origin.source.None? || task.sourceReleased then Committed(s)
      else if task.Open() || task.currentRun.Some? || task.pending.Some? then Aborted(InvalidState)
      else Committed(PutTask(s, task.(sourceReleased := true, version := task.version + 1)))
  }
}
