/** The task operations as they run (task_create.go, task_actions.go, task_complete.go, task.go). */
module TaskOps {
  import opened Commits
  import opened Model
  import opened Tables
  import opened MessageSteps
  import opened RunSteps
  import TaskSteps
  import opened Store
  import MessageOps

  /** The second transaction of createWorkTask, with insertWorkTask. */
  method CreateWorkTask(
    tx: Transaction, creator: TaskSteps.Creator, project: ProjectId, seenVersion: nat, assignee: Option<AgentId>,
    priority: int, maxRetries: nat, base: Commit, source: Option<TaskId>, sourceVersion: nat, now: Time
  ) returns (error: Option<Error>)
    requires Schema(tx.Rows())
    modifies tx`tasks, tx`nextId
    ensures Did(TaskSteps.CreateTask(old(tx.Rows()), creator, project, seenVersion, assignee, priority, maxRetries, base,
                                     source, sourceVersion, now), tx.Rows(), error)
  {
    SchemaKeys(tx.Rows());
    hide Schema, Authenticated;
    error := None;
    var parent := None;
    if creator.ByRun? {
      if !Authenticated(tx.Rows(), creator.run) {
        return Some(StaleRun);
      }
      assert creator.run in tx.runs by { RunExists(tx.Rows(), creator.run); }
      if tx.runs[creator.run].origin.project != project {
        return Some(ScopeDenied);
      }
      parent := Some(tx.runs[creator.run].origin.task);
    }
    if project !in tx.projects {
      return Some(NotFound);
    }
    if tx.projects[project].status != ProjectActive {
      return Some(InvalidState);
    }
    if creator.ByRun? && tx.projects[project].version != seenVersion {
      return Some(VersionConflict);
    }
    var from := None;
    if source.Some? {
      if !TaskSteps.UsableSource(tx.Rows(), project, source.value, sourceVersion) {
        return Some(VersionConflict);
      }
      from := Some(Source(source.value, tx.tasks[source.value].result.value));
    }
    if assignee.Some? {
      if assignee.value !in tx.agents {
        return Some(NotFound);
      }
      if tx.agents[assignee.value] == AgentArchived {
        return Some(InvalidState);
      }
    }
    var id := tx.NewId();
    tx.InsertTask(Task(id, Origin(project, TaskWork, parent, assignee, priority, now, maxRetries, Some(base), from, 0),
                       if assignee.Some? then TaskQueued else TaskWaiting,
                       None, 0, now, 0, None, None, None, None, None, false, 1));
  }

  lemma RunExists(s: Ledger, run: RunId)
    requires Authenticated(s, run)
    ensures run in s.runs
  {
  }

  // ---- wake, retry, rework ----

  function Reenable(message: Message, task: TaskId, now: Time): Message {
    if TaskSteps.NeedsRetry(message, task) then RetryEnabled(message, now) else message
  }

  /** A wake enables exactly the exhausted messages of the task. */
  lemma ReenabledRows(s: Ledger, task: TaskId, now: Time)
    requires Schema(s)
    ensures var target := TaskSteps.Reenabled(s.messages, task, now); var ids := MessagesForTask(s, task);
            && target.Keys == s.messages.Keys
            && (forall m :: m in s.messages && m !in ids ==> target[m] == s.messages[m])
            && (forall m :: m in ids ==>
                  && m in s.messages && s.messages[m].task == task
                  && target[m] == Reenable(s.messages[m], task, now))
  {
    SchemaBounds(s);
    hide Schema, RetryEnabled;
  }

  method EnableRetry(tx: Transaction, task: TaskId, id: MessageId, now: Time)
    requires Schema(tx.Rows()) && id in tx.messages && tx.messages[id].task == task
    modifies tx`messages
    ensures Schema(tx.Rows())
    ensures tx.messages == old(tx.messages)[id := Reenable(old(tx.messages)[id], task, now)]
  {
    SchemaKeys(tx.Rows());
    hide Schema;
    var message := tx.messages[id];
    if message.recipient.ToAgent? && message.state == MessagePending && message.max != 0 && message.count >= message.max {
      var enabled := message.(count := 0, nextAt := Some(now), version := message.version + 1);
      SchemaKeepsMessage(tx.Rows(), enabled);
      tx.UpdateMessage(enabled, message.version, MessagePending);
    } else {
      assert tx.messages == tx.messages[id := message];
    }
  }

  method EnableRetries(tx: Transaction, task: TaskId, now: Time)
    requires Schema(tx.Rows())
    modifies tx`messages
    ensures Schema(tx.Rows())
    ensures tx.messages == TaskSteps.Reenabled(old(tx.messages), task, now)
  {
    hide Schema, MessagesForTask, NoRepeats, Rewriting, TaskSteps.Reenabled, Reenable;
    ghost var before := tx.messages;
    ghost var target := TaskSteps.Reenabled(before, task, now);
    var ids := MessagesForTask(tx.Rows(), task);
    ReenabledRows(tx.Rows(), task, now);
    QueriesHaveNoRepeats(tx.Rows(), task, 0);
    NothingRewritten(before, target);
    assert ids[..0] == [];
    for i := 0 to |ids|
      invariant Schema(tx.Rows()) && tx.messages.Keys == before.Keys
      invariant Rewriting(before, tx.messages, target, ids[..i])
    {
      NotBefore(ids, i);
      RewriteOne(before, tx.messages, target, ids[..i], ids[i]);
      ghost var was := tx.messages;
      EnableRetry(tx, task, ids[i], now);
      assert tx.messages == was[ids[i] := target[ids[i]]];
    }
    assert ids[..|ids|] == ids;
    RewrittenAll(before, tx.messages, target, ids);
  }

  /** WakeTask */
  method WakeTask(tx: Transaction, id: TaskId, now: Time) returns (error: Option<Error>)
    requires Schema(tx.Rows())
    modifies tx`messages, tx`tasks
    ensures Did(TaskSteps.WakeTask(old(tx.Rows()), id, now), tx.Rows(), error)
  {
    SchemaKeys(tx.Rows());
    hide Schema, TaskSteps.Reenabled;
    error := None;
    if id !in tx.tasks {
      return Some(NotFound);
    }
    var task := tx.tasks[id];
    if !task.ActionAvailable() {
      return Some(ActionInProgress);
    }
    if task.origin.assignee.None? || task.status != TaskWaiting {
      return Some(InvalidState);
    }
    EnableRetries(tx, id, now);
    tx.UpdateTask(task.(status := TaskQueued, nextRunAt := now, version := task.version + 1), task.version, TaskWaiting);
  }

  /** RetryTask */
  method RetryTask(tx: Transaction, id: TaskId, now: Time) returns (error: Option<Error>)
    requires Schema(tx.Rows())
    modifies tx`tasks
    ensures Did(TaskSteps.RetryTask(old(tx.Rows()), id, now), tx.Rows(), error)
  {
    SchemaKeys(tx.Rows());
    hide Schema;
    error := None;
    if id !in tx.tasks {
      return Some(NotFound);
    }
    var task := tx.tasks[id];
    if !task.ActionAvailable() {
      return Some(ActionInProgress);
    }
    if task.status != TaskFailed {
      return Some(InvalidState);
    }
    tx.UpdateTask(task.(status := TaskQueued, currentRun := None, generation := task.generation + 1, nextRunAt := now,
                        pending := None, version := task.version + 1),
                  task.version, TaskFailed);
  }

  /** ReworkTask */
  method ReworkTask(tx: Transaction, id: TaskId, now: Time) returns (error: Option<Error>)
    requires Schema(tx.Rows())
    modifies tx`tasks
    ensures Did(TaskSteps.ReworkTask(old(tx.Rows()), id, now), tx.Rows(), error)
  {
    SchemaKeys(tx.Rows());
    hide Schema;
    error := None;
    if id !in tx.tasks {
      return Some(NotFound);
    }
    var task := tx.tasks[id];
    if task.origin.kind == TaskConversation {
      return Some(InvalidState);
    }
    if !task.ActionAvailable() {
      return Some(ActionInProgress);
    }
    if task.status != TaskSubmitted {
      return Some(InvalidState);
    }
    tx.UpdateTask(task.(status := TaskQueued, nextRunAt := now, accepted := None, pending := None,
                        version := task.version + 1),
                  task.version, TaskSubmitted);
  }

  // ---- cancel ----

  /** CancelTask, the release of an integration's source. */
  method ReleaseSource(tx: Transaction, integration: Task) returns (error: Option<Error>)
    requires Schema(tx.Rows())
    modifies tx`tasks
    ensures Schema(tx.Rows()) && Did(TaskSteps.ReleaseSource(old(tx.Rows()), integration), tx.Rows(), error)
  {
    SchemaKeys(tx.Rows());
    hide Schema;
    error := None;
    if integration.origin.kind != TaskIntegration || integration.origin.source.None? {
      return;
    }
    if integration.origin.source.value.task !in tx.tasks {
      return Some(NotFound);
    }
    var source := tx.tasks[integration.origin.source.value.task];
    if source.pending.Some? {
      return Some(ActionInProgress);
    }
    if !TaskSteps.IntegrationSourceFence(source, integration) {
      return Some(VersionConflict);
    }
    var released := source.(link := None, accepted := None, version := source.version + 1);
    SchemaKeepsTask(tx.Rows(), released);
    tx.UpdateTask(released, source.version, TaskSubmitted);
  }

  /** CancelTask, the stop request for a live run. */
  method StopCurrentRun(tx: Transaction, task: Task, reason: string) returns (error: Option<Error>)
    requires Schema(tx.Rows())
    modifies tx`runs, tx`nextId
    ensures Schema(tx.Rows()) && Did(TaskSteps.StopCurrentRun(old(tx.Rows()), task, reason), tx.Rows(), error)
  {
    SchemaKeys(tx.Rows());
    hide Schema;
    error := None;
    if task.currentRun.None? {
      return;
    }
    if task.currentRun.value !in tx.runs {
      return Some(NotFound);
    }
    var run := tx.runs[task.currentRun.value];
    if run.Live() {
      var stopped := run;
      ghost var before := tx.Rows();
      if run.stop.None? {
        var operation := tx.NewId();
        stopped := stopped.(stop := Some(Stop(reason, operation)));
      }
      if !run.tokenRevoked {
        stopped := stopped.(tokenRevoked := true);
      }
      SchemaSkipsIds(before, tx.Rows());
      if stopped != run {
        var row := stopped.(version := run.version + 1);
        SchemaKeepsRun(tx.Rows(), row);
        tx.UpdateRun(row, run.version, run.state);
      }
    }
  }

  lemma SchemaSkipsIds(s: Ledger, s1: Ledger)
    requires Schema(s) && s1 == s.(nextId := s1.nextId) && s.nextId <= s1.nextId
    ensures Schema(s1)
  {
  }

  /** CancelTask */
  method CancelTask(tx: Transaction, id: TaskId, reason: string, now: Time) returns (error: Option<Error>)
    requires Schema(tx.Rows())
    modifies tx
    ensures Did(TaskSteps.CancelTask(old(tx.Rows()), id, reason, now), tx.Rows(), error)
  {
    SchemaKeys(tx.Rows());
    hide Schema, TaskSteps.ReleaseSource, TaskSteps.StopCurrentRun, Conclude;
    error := None;
    if id !in tx.tasks {
      return Some(NotFound);
    }
    var task := tx.tasks[id];
    if !task.ActionAvailable() {
      return Some(ActionInProgress);
    }
    if !ValidTaskTransition(task.origin.kind, task.status, TaskCancelled) {
      return Some(InvalidState);
    }
    ghost var before := tx.Rows();
    error := ReleaseSource(tx, task);
    if error.Some? {
      return;
    }
    ReleaseSparesIntegration(before, task);
    error := StopCurrentRun(tx, task, reason);
    if error.Some? {
      return;
    }
    StopSparesTasks(TaskSteps.ReleaseSource(before, task).ledger, task, reason);
    var row := TaskSteps.CancelledRow(tx.Rows(), task);
    SchemaKeepsTask(tx.Rows(), row);
    tx.UpdateTask(row, task.version, task.status);
    error := MessageOps.ConcludeTask(tx, row, now);
  }

  lemma ReleaseSparesIntegration(s: Ledger, task: Task)
    requires Schema(s) && task.id in s.tasks && s.tasks[task.id] == task && task.link.None?
    requires TaskSteps.ReleaseSource(s, task).Committed?
    ensures var s1 := TaskSteps.ReleaseSource(s, task).ledger; task.id in s1.tasks && s1.tasks[task.id] == task
  {
    SchemaKeys(s);
  }

  lemma StopSparesTasks(s: Ledger, task: Task, reason: string)
    requires TaskSteps.StopCurrentRun(s, task, reason).Committed?
    ensures TaskSteps.StopCurrentRun(s, task, reason).ledger.tasks == s.tasks
  {
  }

  // ---- closing without a captured result ----

  /** CompleteTask */
  method CompleteTask(tx: Transaction, id: TaskId, now: Time) returns (error: Option<Error>)
    requires Schema(tx.Rows())
    modifies tx`tasks, tx`messages, tx`nextId
    ensures Did(TaskSteps.CompleteTask(old(tx.Rows()), id, now), tx.Rows(), error)
  {
    SchemaKeys(tx.Rows());
    hide Schema, NotifyParent;
    error := None;
    if id !in tx.tasks {
      return Some(NotFound);
    }
    var task := tx.tasks[id];
    if task.currentRun.Some? || task.origin.assignee.Some? || task.status != TaskWaiting {
      return Some(InvalidState);
    }
    if task.pending.Some? {
      return Some(ActionInProgress);
    }
    var row := task.(status := TaskCompleted, result := None, version := task.version + 1);
    SchemaKeepsTask(tx.Rows(), row);
    tx.UpdateTask(row, task.version, TaskWaiting);
    error := MessageOps.NotifyParentOfChild(tx, row, now);
  }

  function Closed(message: Message): Message {
    if message.Unresolved() then message.(state := MessageCancelled, version := message.version + 1) else message
  }

  /** Closing cancels exactly the unresolved messages of the conversation. */
  lemma ClosedRows(s: Ledger, task: TaskId)
    requires Schema(s)
    ensures var target := TaskSteps.ClosedMessages(s.messages, task); var ids := MessagesForTask(s, task);
            && target.Keys == s.messages.Keys
            && (forall m :: m in s.messages && m !in ids ==> target[m] == s.messages[m])
            && (forall m :: m in ids ==>
                  && m in s.messages
                  && target[m] == Closed(s.messages[m]))
  {
    SchemaBounds(s);
    hide Schema;
  }

  method CancelUnresolved(tx: Transaction, id: MessageId)
    requires Schema(tx.Rows()) && id in tx.messages
    modifies tx`messages
    ensures Schema(tx.Rows())
    ensures tx.messages == old(tx.messages)[id := Closed(old(tx.messages)[id])]
  {
    SchemaKeys(tx.Rows());
    hide Schema;
    var message := tx.messages[id];
    if message.Unresolved() {
      var cancelled := message.(state := MessageCancelled, version := message.version + 1);
      SchemaKeepsMessage(tx.Rows(), cancelled);
      tx.UpdateMessage(cancelled, message.version, message.state);
    } else {
      assert tx.messages == tx.messages[id := message];
    }
  }

  method CancelAllUnresolved(tx: Transaction, task: TaskId)
    requires Schema(tx.Rows())
    modifies tx`messages
    ensures Schema(tx.Rows())
    ensures tx.messages == TaskSteps.ClosedMessages(old(tx.messages), task)
  {
    hide Schema, MessagesForTask, NoRepeats, Rewriting, TaskSteps.ClosedMessages, Closed;
    ghost var before := tx.messages;
    ghost var target := TaskSteps.ClosedMessages(before, task);
    var ids := MessagesForTask(tx.Rows(), task);
    ClosedRows(tx.Rows(), task);
    QueriesHaveNoRepeats(tx.Rows(), task, 0);
    NothingRewritten(before, target);
    assert ids[..0] == [];
    for i := 0 to |ids|
      invariant Schema(tx.Rows()) && tx.messages.Keys == before.Keys
      invariant Rewriting(before, tx.messages, target, ids[..i])
    {
      NotBefore(ids, i);
      RewriteOne(before, tx.messages, target, ids[..i], ids[i]);
      ghost var was := tx.messages;
      CancelUnresolved(tx, ids[i]);
      assert tx.messages == was[ids[i] := target[ids[i]]];
    }
    assert ids[..|ids|] == ids;
    RewrittenAll(before, tx.messages, target, ids);
  }

  /** CloseConversation */
  method CloseConversation(tx: Transaction, id: TaskId) returns (error: Option<Error>)
    requires Schema(tx.Rows())
    modifies tx`messages, tx`tasks
    ensures Did(TaskSteps.CloseConversation(old(tx.Rows()), id), tx.Rows(), error)
  {
    SchemaKeys(tx.Rows());
    hide Schema, TaskSteps.ClosedMessages;
    error := None;
    if id !in tx.tasks {
      return Some(NotFound);
    }
    var task := tx.tasks[id];
    if task.origin.kind != TaskConversation {
      return Some(InvalidState);
    }
    if !task.ActionAvailable() {
      return Some(ActionInProgress);
    }
    if !ValidTaskTransition(task.origin.kind, task.status, TaskCompleted) {
      return Some(InvalidState);
    }
    CancelAllUnresolved(tx, id);
    tx.UpdateTask(task.(status := TaskCompleted, version := task.version + 1), task.version, task.status);
  }

  /** releaseSourceReference */
  method ReleaseSourceReference(tx: Transaction, id: TaskId) returns (error: Option<Error>)
    requires Schema(tx.Rows())
    modifies tx`tasks
    ensures Did(TaskSteps.ReleaseSourceReference(old(tx.Rows()), id), tx.Rows(), error)
  {
    SchemaKeys(tx.Rows());
    hide Schema;
    error := None;
    if id !in tx.tasks {
      return Some(NotFound);
    }
    var task := tx.tasks[id];
    if task.origin.source.None? || task.sourceReleased {
      return;
    }
    if task.Open() || task.currentRun.Some? || task.pending.Some? {
      return Some(InvalidState);
    }
    tx.UpdateTask(task.(sourceReleased := true, version := task.version + 1), task.version, task.status);
  }
}
