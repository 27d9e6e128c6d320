/** Acceptance and the projections of Git facts as they run (accept.go and git_reconcile.go). */
module GitOps {
  import opened Commits
  import opened Model
  import opened Tables
  import opened MessageSteps
  import opened TaskSteps
  import GitSteps
  import opened Invariant
  import opened GitProofs
  import opened AdvanceProofs
  import opened Store
  import MessageOps

  // ---- acceptance ----

  /** The second transaction of RequestAccept. */
  method RequestAccept(
    tx: Transaction, id: TaskId, integrator: Option<AgentId>, seen: Task, seenProject: Project, head: Commit, canonical: Commit
  ) returns (error: Option<Error>)
    requires Schema(tx.Rows())
    modifies tx`tasks, tx`nextId
    ensures Did(GitSteps.RequestAccept(old(tx.Rows()), id, integrator, seen, seenProject, head, canonical), tx.Rows(), error)
  {
    SchemaKeys(tx.Rows());
    hide Schema;
    error := None;
    if id !in tx.tasks {
      return Some(NotFound);
    }
    var task := tx.tasks[id];
    if task.origin.kind == TaskConversation {
      return Some(InvalidState);
    }
    if !task.ActionAvailable() {
      return Some(ActionInProgress);
    }
    if task.status != TaskSubmitted {
      return Some(InvalidState);
    }
    if task.result.None? {
      return Some(GitInvariantViolation);
    }
    if task.origin.project !in tx.projects {
      return Some(NotFound);
    }
    var project := tx.projects[task.origin.project];
    var selected := if integrator.Some? then integrator else project.integrator;
    if project.status != ProjectActive {
      return Some(InvalidState);
    }
    if selected.None? {
      return Some(IntegrationAgentRequired);
    }
    if selected.value !in tx.agents {
      return Some(NotFound);
    }
    if tx.agents[selected.value] != AgentActive {
      return Some(InvalidState);
    }
    if task.version != seen.version || task.result != seen.result || project.version != seenProject.version {
      return Some(VersionConflict);
    }
    if head != task.result.value.head {
      return Some(GitInvariantViolation);
    }
    WriteAcceptance(tx, task, selected, task.result.value.run, head, canonical);
  }

  method WriteAcceptance(
    tx: Transaction, task: Task, integrator: Option<AgentId>, run: RunId, head: Commit, canonical: Commit
  )
    requires task.id in tx.tasks && tx.tasks[task.id] == task && task.status == TaskSubmitted
    modifies tx`tasks, tx`nextId
    ensures var s := old(tx.Rows());
            var intent := Pending(Advance, s.nextId, task.version + 1, run, canonical, Some(head));
            tx.Rows() == PutTask(s, task.(accepted := integrator, pending := Some(intent), version := task.version + 1))
                         .(nextId := s.nextId + 1)
  {
    var operation := tx.NewId();
    var version := task.version + 1;
    tx.UpdateTask(task.(accepted := integrator, version := version,
                        pending := Some(Pending(Advance, operation, version, run, canonical, Some(head)))),
                  task.version, TaskSubmitted);
  }

  // ---- capture ----

  lemma SchemaSkips(s: Ledger, s1: Ledger)
    requires Schema(s) && s1 == s.(nextId := s1.nextId, projects := s1.projects) && s.nextId <= s1.nextId
    requires s1.projects.Keys == s.projects.Keys
    ensures Schema(s1)
  {
  }

  /** finalizeCapture, past its fence. */
  method StoreCapture(tx: Transaction, task: Task, run: RunId, head: Commit, canonical: Commit, now: Time)
    returns (error: Option<Error>)
    requires Schema(tx.Rows()) && task.id in tx.tasks && tx.tasks[task.id] == task && task.Open()
    modifies tx`tasks, tx`messages, tx`nextId
    ensures Did(GitSteps.StoreCapture(old(tx.Rows()), task, run, head, canonical, now), tx.Rows(), error)
  {
    hide Schema, Dispose, NotifyParent, IntegrationSourceFence;
    var row := task.(result := Some(Result(head, run, TaskRef(task.id, run))), currentRun := None,
                     status := TaskSubmitted, pending := None, version := task.version + 1);
    ghost var before := tx.Rows();
    if task.origin.kind == TaskIntegration {
      if task.origin.source.None? || task.origin.source.value.task !in tx.tasks {
        return Some(NotFound);
      }
      if !IntegrationSourceFence(tx.tasks[task.origin.source.value.task], row) {
        return Some(VersionConflict);
      }
      var operation := tx.NewId();
      row := row.(accepted := row.origin.assignee,
                  pending := Some(Pending(Advance, operation, row.version, run, canonical, Some(head))));
    }
    SchemaSkips(before, tx.Rows());
    SchemaKeepsTask(tx.Rows(), row);
    tx.UpdateTask(row, task.version, task.status);
    error := MessageOps.DisposeUnresolvedMessages(tx, row, now);
    if error.None? && task.origin.kind != TaskIntegration {
      error := MessageOps.NotifyParentOfChild(tx, row, now);
    }
  }

  /** finalizeCapture */
  method FinalizeCapture(tx: Transaction, fact: GitFact, canonical: Commit, now: Time) returns (error: Option<Error>)
    requires Schema(tx.Rows())
    modifies tx`tasks, tx`messages, tx`nextId
    ensures Did(GitSteps.FinalizeCapture(old(tx.Rows()), fact, canonical, now), tx.Rows(), error)
  {
    SchemaKeys(tx.Rows());
    hide Schema, GitSteps.StoreCapture;
    if fact !in tx.facts || !fact.CaptureFact? || fact.intent.id !in tx.tasks || fact.run !in tx.runs {
      return Some(NotFound);
    }
    var task := tx.tasks[fact.intent.id];
    var run := tx.runs[fact.run];
    if !GitSteps.SameCaptureFence(task, run, fact.intent) {
      return Some(StaleRun);
    }
    if fact.head != task.pending.value.expected {
      return Some(GitInvariantViolation);
    }
    if task.origin.project !in tx.projects {
      return Some(NotFound);
    }
    if tx.projects[task.origin.project].status != ProjectActive {
      return Some(InvalidState);
    }
    error := StoreCapture(tx, task, run.id, fact.head, canonical, now);
  }

  method FailProject(tx: Transaction, id: ProjectId)
    requires Schema(tx.Rows())
    modifies tx`projects
    ensures Schema(tx.Rows()) && tx.Rows() == GitSteps.FailProject(old(tx.Rows()), id)
  {
    hide Schema;
    ghost var before := tx.Rows();
    if id in tx.projects && tx.projects[id].status == ProjectActive {
      var project := tx.projects[id];
      tx.UpdateProject(id, project.(status := ProjectError, version := project.version + 1), project.version);
    }
    SchemaSkips(before, tx.Rows());
  }

  /** projectCaptureFailure, past its fence. */
  method StoreCaptureFailure(tx: Transaction, task: Task, fatal: bool, now: Time) returns (error: Option<Error>)
    requires Schema(tx.Rows()) && task.id in tx.tasks && tx.tasks[task.id] == task && task.Open()
    modifies tx`tasks, tx`messages, tx`nextId, tx`projects
    ensures Did(GitSteps.StoreCaptureFailure(old(tx.Rows()), task, fatal, now), tx.Rows(), error)
  {
    hide Schema, Conclude, GitSteps.FailProject;
    error := None;
    var row := task.(currentRun := None, pending := None, version := task.version + 1);
    if fatal {
      row := row.(status := TaskFailed);
    } else {
      var decision := DecideRetry(task.retryCount, task.origin.maxRetries);
      row := row.(status := decision.status, retryCount := decision.retryCount);
      if row.status == TaskQueued {
        row := row.(nextRunAt := RetryAt(now, row.retryCount));
      }
    }
    assert row == GitSteps.CaptureFailedRow(task, fatal, now);
    hide GitSteps.CaptureFailedRow;
    OpenAsBefore(tx.Rows(), task, row);
    tx.UpdateTask(row, task.version, task.status);
    if fatal {
      FailProject(tx, task.origin.project);
    }
    if row.status == TaskFailed {
      error := MessageOps.ConcludeTask(tx, row, now);
    }
  }

  lemma OpenAsBefore(s: Ledger, task: Task, row: Task)
    requires Schema(s) && task.id in s.tasks && s.tasks[task.id] == task && row.id == task.id && row.origin == task.origin
    requires task.Open()
    ensures Schema(PutTask(s, row))
  {
    SchemaKeepsTask(s, row);
  }

  /** projectCaptureFailure */
  method ProjectCaptureFailure(tx: Transaction, fact: GitFact, now: Time) returns (error: Option<Error>)
    requires Schema(tx.Rows())
    modifies tx`tasks, tx`messages, tx`nextId, tx`projects
    ensures Did(GitSteps.ProjectCaptureFailure(old(tx.Rows()), fact, now), tx.Rows(), error)
  {
    SchemaKeys(tx.Rows());
    hide Schema, GitSteps.StoreCaptureFailure;
    error := None;
    if fact !in tx.facts || !fact.CaptureFailure? || fact.intent.id !in tx.tasks || fact.run !in tx.runs {
      return Some(NotFound);
    }
    var task := tx.tasks[fact.intent.id];
    if !GitSteps.SameCaptureFence(task, tx.runs[fact.run], fact.intent) {
      return;
    }
    if fact.fatal && task.origin.project !in tx.projects {
      return Some(NotFound);
    }
    error := StoreCaptureFailure(tx, task, fact.fatal, now);
  }

  // ---- advance ----

  method CacheCanonical(tx: Transaction, id: ProjectId, actual: Commit)
    requires Schema(tx.Rows()) && id in tx.projects
    modifies tx`projects
    ensures Schema(tx.Rows()) && tx.Rows() == GitSteps.CacheCanonical(old(tx.Rows()), id, actual)
    ensures tx.projects.Keys == old(tx.projects.Keys)
  {
    hide Schema;
    ghost var before := tx.Rows();
    var project := tx.projects[id];
    if project.cachedCanonical != Some(actual) {
      tx.UpdateProject(id, project.(cachedCanonical := Some(actual), version := project.version + 1), project.version);
    }
    SchemaSkips(before, tx.Rows());
  }

  /** finalizeSuccessfulAdvance, for the source of an integration task. */
  method CompleteSource(tx: Transaction, integration: Task, actual: Commit, now: Time) returns (error: Option<Error>)
    requires Schema(tx.Rows())
    modifies tx`tasks, tx`messages, tx`nextId
    ensures Did(GitSteps.CompleteSource(old(tx.Rows()), integration, actual, now), tx.Rows(), error)
    ensures error.None? ==> Schema(tx.Rows())
  {
    SchemaKeys(tx.Rows());
    hide Schema, Conclude;
    error := None;
    if integration.origin.kind != TaskIntegration {
      return;
    }
    if integration.origin.source.None? || integration.origin.source.value.task !in tx.tasks {
      return Some(NotFound);
    }
    var source := tx.tasks[integration.origin.source.value.task];
    if !IntegrationSourceFence(source, integration) {
      return Some(VersionConflict);
    }
    var row := source.(status := TaskCompleted, finalCanonical := Some(actual), version := source.version + 1);
    SchemaKeepsTask(tx.Rows(), row);
    tx.UpdateTask(row, source.version, TaskSubmitted);
    error := MessageOps.ConcludeTask(tx, row, now);
  }

  ghost predicate AdvanceReady(s: Ledger, fact: GitFact) {
    && GitSteps.AdvanceProjectable(s, fact) && fact.AdvanceFact?
    && GitSteps.SameAdvanceFence(s.tasks[fact.intent.id], fact.intent)
    && ProjectIsActive(s, s.tasks[fact.intent.id].origin.project)
  }

  /** The checks both advance projections begin with. */
  method CheckAdvance(tx: Transaction, fact: GitFact, stale: bool) returns (error: Option<Error>)
    ensures error.None? <==> AdvanceReady(tx.Rows(), fact) && (fact.outcome == AdvanceStale) == stale
    ensures error.Some? ==> forall now ::
              (if stale then GitSteps.FinalizeStale(tx.Rows(), fact, now) else GitSteps.FinalizeSuccess(tx.Rows(), fact, now))
              == Aborted(error.value)
  {
    if !GitSteps.AdvanceProjectable(tx.Rows(), fact) || !fact.AdvanceFact? || (fact.outcome == AdvanceStale) != stale {
      return Some(NotFound);
    }
    var task := tx.tasks[fact.intent.id];
    if !GitSteps.SameAdvanceFence(task, fact.intent) {
      return Some(VersionConflict);
    }
    if task.origin.project !in tx.projects {
      return Some(NotFound);
    }
    if tx.projects[task.origin.project].status != ProjectActive {
      return Some(InvalidState);
    }
    return None;
  }

  /** finalizeSuccessfulAdvance, past its fence. */
  method StoreCompletion(tx: Transaction, task: Task, actual: Commit, now: Time) returns (error: Option<Error>)
    requires Schema(tx.Rows()) && task.id in tx.tasks && tx.tasks[task.id] == task && task.Open()
    requires task.origin.project in tx.projects
    requires SourceSpares(tx.Rows(), task, actual, now)
    modifies tx`tasks, tx`messages, tx`nextId, tx`projects
    ensures Did(GitSteps.StoreCompletion(old(tx.Rows()), task, actual, now), tx.Rows(), error)
  {
    hide Schema, Dispose, NotifyParent, GitSteps.CacheCanonical, GitSteps.CompleteSource;
    CacheCanonical(tx, task.origin.project, actual);
    error := CompleteSource(tx, task, actual, now);
    if error.None? {
      var row := task.(status := TaskCompleted, finalCanonical := Some(actual), pending := None, version := task.version + 1);
      OpenAsBefore(tx.Rows(), task, row);
      tx.UpdateTask(row, task.version, task.status);
      error := MessageOps.DisposeUnresolvedMessages(tx, row, now);
      if error.None? && task.origin.kind != TaskIntegration {
        error := MessageOps.NotifyParentOfChild(tx, row, now);
      }
    }
  }

  /** Completing the source, whatever its messages and its parent set off, leaves the integration
    row as it was read. */
  ghost predicate SourceSpares(s: Ledger, task: Task, actual: Commit, now: Time)
    requires task.origin.project in s.projects
  {
    var done := GitSteps.CompleteSource(GitSteps.CacheCanonical(s, task.origin.project, actual), task, actual, now);
    done.Committed? ==> task.id in done.ledger.tasks && done.ledger.tasks[task.id] == task
  }

  /** finalizeSuccessfulAdvance */
  method FinalizeSuccessfulAdvance(tx: Transaction, fact: GitFact, now: Time) returns (error: Option<Error>)
    requires tx.Valid()
    modifies tx`tasks, tx`messages, tx`nextId, tx`projects
    ensures Did(GitSteps.FinalizeSuccess(old(tx.Rows()), fact, now), tx.Rows(), error)
  {
    SchemaHolds(tx.Rows());
    SchemaKeys(tx.Rows());
    hide Inv, Schema, GitSteps.StoreCompletion, SourceSpares;
    error := CheckAdvance(tx, fact, false);
    if error.None? {
      SourceSparesIntegration(tx.Rows(), fact, now);
      error := StoreCompletion(tx, tx.tasks[fact.intent.id], fact.actual, now);
    }
  }

  lemma SourceSparesIntegration(s: Ledger, fact: GitFact, now: Time)
    requires Inv(s) && AdvanceReady(s, fact) && fact.outcome != AdvanceStale
    ensures SourceSpares(s, s.tasks[fact.intent.id], fact.actual, now)
  {
    hide InvExcept, FactOk, Contained, GitSteps.CacheCanonical, GitSteps.CompleteSource;
    var task := s.tasks[fact.intent.id];
    TaskAt(s, {}, fact.intent.id);
    AdvancesFact(s, fact);
    AdvanceContains(s, task, fact);
    ActualIsPast(s, task, fact);
    CacheKeeps(s, {}, task.origin.project, fact.actual);
    var s1 := GitSteps.CacheCanonical(s, task.origin.project, fact.actual);
    ContainedStays(s, s1, task, fact.actual);
    CompleteSourceKeeps(s1, task, fact.actual, now);
  }

  /** finalizeStaleAdvance, for a result that needs an integration task. */
  method OpenIntegration(tx: Transaction, task: Task, actual: Commit, now: Time) returns (error: Option<Error>)
    requires Schema(tx.Rows()) && task.id in tx.tasks && tx.tasks[task.id] == task
    modifies tx`tasks, tx`messages, tx`nextId
    ensures Did(GitSteps.OpenIntegration(old(tx.Rows()), task, actual, now), tx.Rows(), error)
  {
    SchemaKeys(tx.Rows());
    hide Schema;
    error := None;
    if task.accepted.None? || task.accepted.value !in tx.agents || task.result.None? {
      return Some(NotFound);
    }
    if tx.agents[task.accepted.value] == AgentArchived {
      return Some(GitInvariantViolation);
    }
    var id := tx.NewId();
    var linkedVersion := task.version + 1;
    tx.UpdateTask(task.(link := Some(id), pending := None, version := linkedVersion), task.version, task.status);
    tx.InsertTask(Task(id, Origin(task.origin.project, TaskIntegration, None, task.accepted, task.origin.priority, now,
                                  task.origin.maxRetries, Some(actual), Some(Source(task.id, task.result.value)),
                                  linkedVersion),
                       TaskQueued, None, 0, now, 0, None, None, None, None, None, false, 1));
    tx.AppendMessage(task.origin.project, id, ToAgent(task.accepted.value), true, 3, now);
  }

  /** finalizeStaleAdvance, for an integration that lost the race. */
  method RestartIntegration(tx: Transaction, task: Task, now: Time) returns (error: Option<Error>)
    requires Schema(tx.Rows()) && task.id in tx.tasks && tx.tasks[task.id] == task
    modifies tx`tasks, tx`messages, tx`nextId
    ensures Did(GitSteps.RestartIntegration(old(tx.Rows()), task, now), tx.Rows(), error)
  {
    hide Schema, InsertMessage;
    error := None;
    if task.origin.source.None? || task.origin.source.value.task !in tx.tasks || task.origin.assignee.None? {
      return Some(NotFound);
    }
    if !IntegrationSourceFence(tx.tasks[task.origin.source.value.task], task) {
      return Some(VersionConflict);
    }
    tx.UpdateTask(task.(status := TaskQueued, currentRun := None, nextRunAt := now, pending := None,
                        version := task.version + 1),
                  task.version, task.status);
    tx.AppendMessage(task.origin.project, task.id, ToAgent(task.origin.assignee.value), true, 3, now);
  }

  /** finalizeStaleAdvance */
  method FinalizeStaleAdvance(tx: Transaction, fact: GitFact, now: Time) returns (error: Option<Error>)
    requires Schema(tx.Rows())
    modifies tx`tasks, tx`messages, tx`nextId, tx`projects
    ensures Did(GitSteps.FinalizeStale(old(tx.Rows()), fact, now), tx.Rows(), error)
  {
    SchemaKeys(tx.Rows());
    hide Schema, GitSteps.CacheCanonical, GitSteps.OpenIntegration, GitSteps.RestartIntegration;
    error := CheckAdvance(tx, fact, true);
    if error.None? {
      var task := tx.tasks[fact.intent.id];
      CacheCanonical(tx, task.origin.project, fact.actual);
      if task.origin.kind == TaskIntegration {
        error := RestartIntegration(tx, task, now);
      } else {
        error := OpenIntegration(tx, task, fact.actual, now);
      }
    }
  }

  /** projectAdvanceInvariantFailure, past its fence. */
  method StoreAdvanceFailure(tx: Transaction, task: Task, now: Time) returns (error: Option<Error>)
    requires Schema(tx.Rows()) && task.id in tx.tasks && tx.tasks[task.id] == task && task.Open()
    modifies tx`tasks, tx`messages, tx`nextId, tx`projects
    ensures Did(GitSteps.StoreAdvanceFailure(old(tx.Rows()), task, now), tx.Rows(), error)
  {
    hide Schema, Conclude, GitSteps.FailProject;
    var row := task.(status := TaskFailed, pending := None, version := task.version + 1);
    OpenAsBefore(tx.Rows(), task, row);
    tx.UpdateTask(row, task.version, task.status);
    FailProject(tx, task.origin.project);
    error := MessageOps.ConcludeTask(tx, row, now);
  }

  /** projectAdvanceInvariantFailure */
  method ProjectAdvanceInvariantFailure(tx: Transaction, fact: GitFact, now: Time) returns (error: Option<Error>)
    requires Schema(tx.Rows())
    modifies tx`tasks, tx`messages, tx`nextId, tx`projects
    ensures Did(GitSteps.ProjectAdvanceFailure(old(tx.Rows()), fact, now), tx.Rows(), error)
  {
    SchemaKeys(tx.Rows());
    hide Schema, GitSteps.StoreAdvanceFailure;
    error := None;
    if !GitSteps.AdvanceProjectable(tx.Rows(), fact) || !fact.AdvanceFailure? {
      return Some(NotFound);
    }
    var task := tx.tasks[fact.intent.id];
    if !GitSteps.SameAdvanceFence(task, fact.intent) {
      return;
    }
    if task.origin.project !in tx.projects {
      return Some(NotFound);
    }
    error := StoreAdvanceFailure(tx, task, now);
  }
}
