/** The run operations as they run (run.go, runtime_lifecycle.go, outcome.go, run_actions.go, terminal.go). */
module RunOps {
  import opened Commits
  import opened Model
  import opened Tables
  import MessageSteps
  import opened RunSteps
  import opened Store
  import MessageOps

  // ---- launch ----

  /** BeginRunLaunch */
  method BeginRunLaunch(
    tx: Transaction, id: RunId, generation: nat, nonce: nat, cleanupOperation: OperationId
  ) returns (error: Option<Error>)
    requires Schema(tx.Rows())
    modifies tx`runs
    ensures Did(BeginLaunch(old(tx.Rows()), id, generation, nonce, cleanupOperation), tx.Rows(), error)
  {
    SchemaKeys(tx.Rows());
    hide Schema;
    error := None;
    if id !in tx.runs {
      return Some(NotFound);
    }
    var run := tx.runs[id];
    if run.origin.task !in tx.tasks {
      return Some(NotFound);
    }
    var task := tx.tasks[run.origin.task];
    if run.state != RunStarting || run.phase != LaunchIntent || run.container.Some? || task.status != TaskQueued
       || task.currentRun != Some(run.id) || task.generation != run.origin.generation || run.origin.generation != generation {
      return Some(StaleRun);
    }
    if run.nonce.Some? {
      if run.nonce != Some(nonce) || run.cleanupOperation != Some(cleanupOperation) {
        return Some(ActionInProgress);
      }
      return;
    }
    tx.UpdateRun(run.(nonce := Some(nonce), cleanupOperation := Some(cleanupOperation), cleanup := CleanupPending,
                      version := run.version + 1),
                 run.version, RunStarting);
  }

  /** advanceRunPhase: a phase that was passed already is not entered again. */
  method AdvanceRunPhase(
    tx: Transaction, id: RunId, key: RuntimeKey, expected: LaunchPhase, next: LaunchPhase
  ) returns (error: Option<Error>)
    requires Schema(tx.Rows())
    requires (expected == LaunchIntent && next == LaunchCreated && key.container.Some?)
             || (expected == LaunchCreated && next == LaunchStartIssued)
    modifies tx`runs
    ensures Did(if next == LaunchCreated then RecordContainerCreated(old(tx.Rows()), id, key)
                else RecordStartIssued(old(tx.Rows()), id, key), tx.Rows(), error)
  {
    SchemaKeys(tx.Rows());
    hide Schema;
    error := None;
    if id !in tx.runs {
      return Some(NotFound);
    }
    var run := tx.runs[id];
    if !RuntimeFactFence(run, key) {
      return Some(StaleRun);
    }
    if LaunchPhaseOrder(run.phase) > LaunchPhaseOrder(expected) {
      return;
    }
    if run.state != RunStarting || run.phase != expected {
      return Some(InvalidState);
    }
    if next == LaunchCreated {
      run := run.(container := key.container);
    }
    tx.UpdateRun(run.(phase := next, version := run.version + 1), run.version, RunStarting);
  }

  /** ObserveProcessAndActivateRun */
  method ObserveProcessAndActivateRun(tx: Transaction, id: RunId, key: RuntimeKey) returns (error: Option<Error>)
    requires Schema(tx.Rows())
    modifies tx`runs, tx`tasks
    ensures Did(Activate(old(tx.Rows()), id, key), tx.Rows(), error)
  {
    SchemaKeys(tx.Rows());
    hide Schema;
    error := None;
    if id !in tx.runs {
      return Some(NotFound);
    }
    var run := tx.runs[id];
    if run.state == RunActive && run.phase == LaunchProcessObserved {
      if !RuntimeFactFence(run, key) {
        return Some(StaleRun);
      }
      return;
    }
    if run.state != RunStarting || run.phase != LaunchStartIssued {
      return Some(InvalidState);
    }
    if !RuntimeFactFence(run, key) {
      return Some(StaleRun);
    }
    if run.origin.task !in tx.tasks {
      return Some(NotFound);
    }
    var task := tx.tasks[run.origin.task];
    if task.status != TaskQueued || task.currentRun != Some(run.id) || task.generation != run.origin.generation {
      return Some(VersionConflict);
    }
    tx.UpdateRun(run.(state := RunActive, phase := LaunchProcessObserved, version := run.version + 1),
                 run.version, RunStarting);
    tx.UpdateTask(task.(status := TaskRunning, version := task.version + 1), task.version, TaskQueued);
  }

  /** RecordRunSession */
  method RecordRunSession(tx: Transaction, id: RunId, key: RuntimeKey, session: string) returns (error: Option<Error>)
    requires Schema(tx.Rows())
    modifies tx`runs
    ensures Did(RecordSession(old(tx.Rows()), id, key, session), tx.Rows(), error)
  {
    SchemaKeys(tx.Rows());
    hide Schema;
    error := None;
    if session == "" {
      return Some(InvalidArgument);
    }
    if id !in tx.runs {
      return Some(NotFound);
    }
    var run := tx.runs[id];
    if !RuntimeFactFence(run, key) {
      return Some(StaleRun);
    }
    if run.state != RunStarting && run.state != RunActive {
      return Some(InvalidState);
    }
    if run.session != "" {
      if run.session != session {
        return Some(InvalidState);
      }
      return;
    }
    tx.UpdateRun(run.(session := session, version := run.version + 1), run.version, run.state);
  }

  /** RecordRunHeartbeat */
  method RecordRunHeartbeat(tx: Transaction, id: RunId, key: RuntimeKey) returns (error: Option<Error>)
    requires Schema(tx.Rows())
    modifies tx`runs
    ensures Did(RecordHeartbeat(old(tx.Rows()), id, key), tx.Rows(), error)
  {
    SchemaKeys(tx.Rows());
    hide Schema;
    error := None;
    if id !in tx.runs {
      return Some(NotFound);
    }
    var run := tx.runs[id];
    if !RuntimeFactFence(run, key) {
      return Some(StaleRun);
    }
    if run.state != RunActive || run.phase != LaunchProcessObserved {
      return Some(InvalidState);
    }
    tx.UpdateRun(run.(version := run.version + 1), run.version, RunActive);
  }

  /** RecordRunCleanup */
  method RecordRunCleanup(
    tx: Transaction, id: RunId, key: RuntimeKey, operation: OperationId, next: CleanupState, lastError: string
  ) returns (error: Option<Error>)
    requires Schema(tx.Rows())
    modifies tx`runs
    ensures Did(RecordCleanup(old(tx.Rows()), id, key, operation, next, lastError), tx.Rows(), error)
  {
    SchemaKeys(tx.Rows());
    hide Schema;
    error := None;
    if next != CleanupPending && next != CleanupBlocked && next != CleanupRemoved {
      return Some(InvalidArgument);
    }
    if id !in tx.runs {
      return Some(NotFound);
    }
    var run := tx.runs[id];
    if !RuntimeFactFence(run, key) || run.cleanupOperation != Some(operation) {
      return Some(StaleRun);
    }
    if run.cleanup == next && (next != CleanupBlocked || run.fact.lastError == lastError) {
      return;
    }
    if !ValidCleanupTransition(run.cleanup, next, !run.Live()) {
      return Some(InvalidState);
    }
    var row := run.(cleanup := next);
    if next == CleanupBlocked {
      row := row.(fact := run.fact.(lastError := lastError));
    }
    tx.UpdateRun(row.(version := run.version + 1), run.version, run.state);
  }

  /** requestRunStop */
  method RequestRunStop(
    tx: Transaction, id: RunId, reason: string, operation: Option<OperationId>
  ) returns (error: Option<Error>)
    requires Schema(tx.Rows())
    modifies tx`runs, tx`nextId
    ensures Did(RequestStop(old(tx.Rows()), id, reason, operation), tx.Rows(), error)
  {
    SchemaKeys(tx.Rows());
    hide Schema;
    error := None;
    if id !in tx.runs {
      return Some(NotFound);
    }
    var run := tx.runs[id];
    if !run.Live() {
      return Some(InvalidState);
    }
    if run.stop.Some? {
      if run.stop.value.reason != reason || (operation.Some? && operation.value != run.stop.value.operation) {
        return Some(ActionInProgress);
      }
      return;
    }
    var stopOperation := tx.NewId();
    tx.UpdateRun(run.(stop := Some(Stop(reason, if operation.Some? then operation.value else stopOperation)),
                      tokenRevoked := true, version := run.version + 1),
                 run.version, run.state);
  }

  // ---- outcome ----

  /** The second transaction of RequestOutcome. */
  method ApplyOutcome(
    tx: Transaction, id: RunId, outcome: TaskOutcome, seenTask: Task, seenRun: Run, head: Commit
  ) returns (error: Option<Error>)
    requires Schema(tx.Rows())
    modifies tx`runs, tx`tasks, tx`nextId
    ensures Did(RunSteps.ApplyOutcome(old(tx.Rows()), id, outcome, seenTask, seenRun, head), tx.Rows(), error)
  {
    SchemaKeys(tx.Rows());
    hide Schema, OutcomeRun, OutcomeTask;
    error := None;
    if !Authenticated(tx.Rows(), id) {
      return Some(StaleRun);
    }
    var run := tx.runs[id];
    var task := tx.tasks[run.origin.task];
    if task.version != seenTask.version || task.status != seenTask.status
       || run.version != seenRun.version || run.state != seenRun.state {
      return Some(VersionConflict);
    }
    if task.origin.kind == TaskConversation && outcome == OutcomeSubmit {
      return Some(InvalidState);
    }
    if task.pending.Some? {
      return Some(ActionInProgress);
    }
    WriteOutcome(tx, run, task, outcome, head);
  }

  method WriteOutcome(tx: Transaction, run: Run, task: Task, outcome: TaskOutcome, head: Commit)
    requires run.id in tx.runs && tx.runs[run.id] == run && task.id in tx.tasks && tx.tasks[task.id] == task
    modifies tx`runs, tx`tasks, tx`nextId
    ensures var s := old(tx.Rows());
            tx.Rows() == PutTask(PutRun(s, OutcomeRun(run, outcome, head)), OutcomeTask(s, task, run.id, outcome, head))
                         .(nextId := if outcome == OutcomeSubmit then s.nextId + 1 else s.nextId)
  {
    tx.UpdateRun(run.(outcome := Some(outcome), expectedHead := if outcome == OutcomeSubmit then Some(head) else None,
                      tokenRevoked := true, version := run.version + 1),
                 run.version, run.state);
    var row := task.(status := TaskFinishing, version := task.version + 1);
    if outcome == OutcomeSubmit {
      var operation := tx.NewId();
      row := row.(pending := Some(Pending(Capture, operation, row.version, run.id, head, None)));
    }
    tx.UpdateTask(row, task.version, task.status);
  }

  // ---- terminal ----

  /** redeliverRunMessages, one message of its loop. */
  method RedeliverMessage(tx: Transaction, id: MessageId, now: Time)
    requires Schema(tx.Rows()) && id in tx.messages
    modifies tx`messages
    ensures Schema(tx.Rows())
    ensures tx.messages == if old(tx.messages)[id].state == MessageDelivered
                           then old(tx.messages)[id := Redeliver(old(tx.messages)[id], now)] else old(tx.messages)
  {
    SchemaKeys(tx.Rows());
    hide Schema;
    var message := tx.messages[id];
    if message.state == MessageDelivered {
      var redelivered := message.(state := MessagePending, deliveredRun := None, version := message.version + 1,
                                  nextAt := if message.Exhausted() then None else Some(RetryAt(now, message.count)));
      SchemaKeepsMessage(tx.Rows(), redelivered);
      tx.UpdateMessage(redelivered, message.version, MessageDelivered);
    }
  }

  /** Redelivery changes no message outside the query, and in it those that are still delivered. */
  lemma RedeliveredRows(s: Ledger, run: RunId, now: Time)
    requires Schema(s)
    ensures var target := Redelivered(s.messages, run, now); var ids := MessagesForRun(s, run);
            && target.Keys == s.messages.Keys
            && (forall m :: m in s.messages && m !in ids ==> target[m] == s.messages[m])
            && (forall m :: m in ids ==>
                  && m in s.messages
                  && target[m] == if s.messages[m].state == MessageDelivered then Redeliver(s.messages[m], now)
                                  else s.messages[m])
  {
    SchemaBounds(s);
    hide Schema, Redeliver;
  }

  /** redeliverRunMessages */
  method RedeliverRunMessages(tx: Transaction, run: RunId, now: Time)
    requires Schema(tx.Rows())
    modifies tx`messages
    ensures Schema(tx.Rows())
    ensures tx.messages == Redelivered(old(tx.messages), run, now)
  {
    hide Schema, DeliveredBelow, MessagesForRun, NoRepeats, Rewriting, Redelivered, Redeliver;
    ghost var before := tx.messages;
    ghost var target := Redelivered(before, run, now);
    var ids := MessagesForRun(tx.Rows(), run);
    RedeliveredRows(tx.Rows(), run, now);
    QueriesHaveNoRepeats(tx.Rows(), 0, run);
    NothingRewritten(before, target);
    assert ids[..0] == [];
    for i := 0 to |ids|
      invariant Schema(tx.Rows()) && tx.messages.Keys == before.Keys
      invariant Rewriting(before, tx.messages, target, ids[..i])
    {
      NotBefore(ids, i);
      RewriteOne(before, tx.messages, target, ids[..i], ids[i]);
      ghost var was := tx.messages;
      RedeliverMessage(tx, ids[i], now);
      assert tx.messages == was[ids[i] := target[ids[i]]];
    }
    assert ids[..|ids|] == ids;
    RewrittenAll(before, tx.messages, target, ids);
  }

  /** projectTerminalTask */
  method ProjectTerminalTask(tx: Transaction, task: Task, run: Run, now: Time) returns (error: Option<Error>)
    requires Schema(tx.Rows()) && task.id in tx.tasks && tx.tasks[task.id] == task
    modifies tx`tasks, tx`messages, tx`nextId
    ensures Did(ProjectTerminal(old(tx.Rows()), task, run, WakeAt(old(tx.Rows()), task.id), now), tx.Rows(), error)
  {
    hide Schema, MessageSteps.Conclude, WakeAt;
    error := None;
    var row := task.(currentRun := None, version := task.version + 1);
    if run.outcome.None? {
      if task.status != TaskQueued && task.status != TaskRunning {
        return Some(InvalidState);
      }
      row := RuntimeFailed(task, run.state, now);
      if row.status != task.status && !ValidTaskTransition(task.origin.kind, task.status, row.status) {
        return Some(InvalidState);
      }
      SchemaKeepsTask(tx.Rows(), row);
      tx.UpdateTask(row, task.version, task.status);
      if row.status == TaskFailed {
        error := MessageOps.ConcludeTask(tx, row, now);
      }
      return;
    }
    match run.outcome.value
    case OutcomeWait =>
      if task.status != TaskFinishing {
        return Some(InvalidState);
      }
      var wake := tx.PendingWakeAt(task.id);
      if wake.Some? {
        row := row.(status := TaskQueued, nextRunAt := if wake.value < now then now else wake.value);
      } else {
        row := row.(status := TaskWaiting);
      }
      tx.UpdateTask(row, task.version, TaskFinishing);
    case OutcomeFail =>
      if task.status != TaskFinishing {
        return Some(InvalidState);
      }
      row := row.(status := TaskFailed, pending := None);
      SchemaKeepsTask(tx.Rows(), row);
      tx.UpdateTask(row, task.version, TaskFinishing);
      error := MessageOps.ConcludeTask(tx, row, now);
    case OutcomeSubmit =>
      if task.status != TaskFinishing || task.pending.None? || task.pending.value.action != Capture
         || task.pending.value.run != run.id {
        return Some(ActionInProgress);
      }
  }

  /** The terminal fact and the redelivery, before the task is looked at. */
  method EndRun(tx: Transaction, run: Run, input: TerminalInput, now: Time) returns (ended: Run)
    requires Schema(tx.Rows()) && run.id in tx.runs && tx.runs[run.id] == run
    modifies tx`runs, tx`messages
    ensures Schema(tx.Rows()) && tx.Rows() == Terminated(old(tx.Rows()), run, input, now)
    ensures run.id in tx.runs && ended == tx.runs[run.id]
  {
    hide Schema, Redelivered;
    ended := run.(state := input.state, fact := input.fact, tokenRevoked := true, version := run.version + 1);
    if input.session != "" {
      ended := ended.(session := input.session);
    }
    SchemaKeepsRun(tx.Rows(), ended);
    tx.UpdateRun(ended, run.version, run.state);
    RedeliverRunMessages(tx, run.id, now);
  }

  /** RecordRuntimeRunTerminal */
  method RecordRuntimeRunTerminal(tx: Transaction, id: RunId, input: TerminalInput, now: Time) returns (error: Option<Error>)
    requires Schema(tx.Rows())
    modifies tx
    ensures Did(RecordTerminal(old(tx.Rows()), id, input, now), tx.Rows(), error)
  {
    SchemaKeys(tx.Rows());
    hide ProjectTerminal, Schema, Redelivered, TerminalFence;
    error := None;
    if input.state == RunStarting || input.state == RunActive {
      return Some(InvalidArgument);
    }
    if id !in tx.runs {
      return Some(NotFound);
    }
    var run := tx.runs[id];
    if !TerminalFence(run, input) {
      return Some(StaleRun);
    }
    if run.origin.task !in tx.tasks {
      return Some(NotFound);
    }
    var task := tx.tasks[run.origin.task];
    if !run.Live() {
      if run.state != input.state || run.fact != input.fact || (input.session != "" && run.session != input.session) {
        return Some(InvalidState);
      }
      return;
    }
    if !ValidRunTransition(run.state, input.state) {
      return Some(InvalidState);
    }
    var ended := EndRun(tx, run, input, now);
    if task.currentRun == Some(id) {
      if task.status == TaskCancelled {
        tx.UpdateTask(task.(currentRun := None, version := task.version + 1), task.version, TaskCancelled);
      } else if task.generation == run.origin.generation {
        error := ProjectTerminalTask(tx, task, ended, now);
      }
    }
  }
}
