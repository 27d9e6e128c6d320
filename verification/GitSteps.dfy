/** Capture and advance intents, and their projection into the tables
  (git_reconcile.go and accept.go in internal/core).
 */
module GitSteps {
  import opened Commits
  import opened Model
  import opened Tables
  import opened MessageSteps
  import opened RunSteps
  import opened TaskSteps

  // ---- what Git may do ----

  /** What one call of Advance may leave behind when every other writer of the canonical ref
    only fast-forwards it too. `actual` is the canonical commit the outcome was read from. */
  predicate AdvanceEffect(before: Commit, target: Commit, after: Commit, outcome: AdvanceOutcome, actual: Commit) {
    && IsAncestor(before, after)
    && IsAncestor(actual, after)
    && (outcome == AdvanceUpdated ==> actual == target)
    && (outcome == AdvanceIncluded ==> IsAncestor(target, actual))
    && (outcome == AdvanceStale ==> !IsAncestor(target, actual))
  }

  /** validateCapturedAncestry */
  predicate CapturedAncestry(origin: Origin, head: Commit) {
    && origin.base.Some? && IsAncestor(origin.base.value, head)
    && (origin.source.Some? ==> IsAncestor(origin.source.value.result.head, head))
  }

  /** The reconciler reads a task row with a pending Git action. */
  predicate CanReadIntent(s: Ledger, id: TaskId) {
    id in s.tasks && s.tasks[id].pending.Some?
  }

  function ReadIntent(s: Ledger, id: TaskId): Tx {
    if !CanReadIntent(s, id) then Aborted(NotFound) else Committed(s.(intents := s.intents + {s.tasks[id]}))
  }

  predicate CaptureIntent(s: Ledger, intent: Task) {
    && intent in s.intents && intent.pending.Some? && intent.pending.value.action == Capture
    && intent.pending.value.run in s.runs && !s.runs[intent.pending.value.run].Live()
  }

  function IntentRef(intent: Task): TaskRef
    requires intent.pending.Some?
  {
    TaskRef(intent.id, intent.pending.value.run)
  }

  /** Capture, up to its write of the immutable task ref. */
  function WriteTaskRef(s: Ledger, intent: Task): Tx {
    if !CaptureIntent(s, intent) then Aborted(NotFound)
    else
      var head := intent.pending.value.expected;
      if IntentRef(intent) in s.refs && s.refs[IntentRef(intent)] != head then Aborted(GitInvariantViolation)
      else if !CapturedAncestry(intent.origin, head) then Aborted(InvalidState)
      else Committed(s.(refs := s.refs[IntentRef(intent) := head]))
  }

  /** Capture, when it read the task ref back and returned. */
  function ReportCapture(s: Ledger, intent: Task): Tx {
    if !CaptureIntent(s, intent) then Aborted(NotFound)
    else
      var head := intent.pending.value.expected;
      if IntentRef(intent) !in s.refs || s.refs[IntentRef(intent)] != head then Aborted(GitInvariantViolation)
      else if !CapturedAncestry(intent.origin, head) then Aborted(InvalidState)
      else Committed(s.(facts := s.facts + {CaptureFact(intent, intent.pending.value.run, head)}))
  }

  function ReportCaptureFailure(s: Ledger, intent: Task, fatal: bool): Tx {
    if !CaptureIntent(s, intent) then Aborted(NotFound)
    else Committed(s.(facts := s.facts + {CaptureFailure(intent, intent.pending.value.run, fatal)}))
  }

  predicate AdvanceIntent(s: Ledger, intent: Task) {
    && intent in s.intents && intent.pending.Some? && intent.pending.value.action == Advance
    && intent.result.Some? && intent.pending.value.target.Some?
  }

  function AdvanceCanonical(s: Ledger, intent: Task, after: Commit, outcome: AdvanceOutcome, actual: Commit): Tx {
    if !AdvanceIntent(s, intent) || intent.origin.project !in s.canonical then Aborted(NotFound)
    else
      var target := intent.pending.value.target.value;
      if intent.result.value.ref !in s.refs || s.refs[intent.result.value.ref] != target
      then Aborted(GitInvariantViolation)
      else if !AdvanceEffect(s.canonical[intent.origin.project], target, after, outcome, actual)
      then Aborted(GitInvariantViolation)
      else
        Committed(s.(canonical := s.canonical[intent.origin.project := after],
                     facts := s.facts + {AdvanceFact(intent, outcome, actual)}))
  }

  function ReportAdvanceFailure(s: Ledger, intent: Task): Tx {
    if !AdvanceIntent(s, intent) then Aborted(NotFound)
    else Committed(s.(facts := s.facts + {AdvanceFailure(intent)}))
  }

  /** A fast-forward of the canonical ref whose result nobody reports: an Advance that
    crashed after its write, or another writer. */
  function FastForward(s: Ledger, project: ProjectId, after: Commit): Tx {
    if project !in s.canonical then Aborted(NotFound)
    else if !IsAncestor(s.canonical[project], after) then Aborted(GitInvariantViolation)
    else Committed(s.(canonical := s.canonical[project := after]))
  }

  /** Garbage collection may delete any task ref. */
  function DropTaskRef(s: Ledger, ref: TaskRef): Tx {
    Committed(s.(refs := s.refs - {ref}))
  }

  // ---- capture projections ----

  /** sameCaptureFence */
  predicate SameCaptureFence(task: Task, run: Run, intent: Task) {
    && task.status == TaskFinishing
    && task.pending.Some? && intent.pending.Some?
    && task.pending.value.action == Capture
    && task.pending.value.id == intent.pending.value.id
    && task.version == intent.pending.value.version
    && task.pending.value.version == intent.pending.value.version
    && task.pending.value.run == run.id
    && task.currentRun == Some(run.id)
    && task.generation == run.origin.generation
    && !run.Live()
    && run.outcome == Some(OutcomeSubmit)
    && run.expectedHead == Some(task.pending.value.expected)
  }

  function SubmittedRow(task: Task, run: RunId, head: Commit): Task {
    task.(result := Some(Result(head, run, TaskRef(task.id, run))), currentRun := None,
          status := TaskSubmitted, pending := None, version := task.version + 1)
  }

  /** An integration result needs no second acceptance: its advance starts at once. */
  function IntegrationSubmittedRow(row: Task, run: RunId, head: Commit, operation: OperationId, canonical: Commit): Task {
    row.(accepted := row.origin.assignee,
         pending := Some(Pending(Advance, operation, row.version, run, canonical, Some(head))))
  }

  /** What finalizeCapture writes once its fence passed. */
  ghost function StoreCapture(s: Ledger, task: Task, run: RunId, head: Commit, canonical: Commit, now: Time): Tx {
    var row := SubmittedRow(task, run, head);
    if task.origin.kind != TaskIntegration then Conclude(PutTask(s, row), row, now)
    else if task.origin.source.None? || task.origin.source.value.task !in s.tasks then Aborted(NotFound)
    else if !IntegrationSourceFence(s.tasks[task.origin.source.value.task], row) then Aborted(VersionConflict)
    else
      var advancing := IntegrationSubmittedRow(row, run, head, s.nextId, canonical);
      Dispose(PutTask(s, advancing).(nextId := s.nextId + 1), advancing, now)
  }

  /** finalizeCapture; `canonical` is the canonical commit resolved after the capture. */
  ghost function FinalizeCapture(s: Ledger, fact: GitFact, canonical: Commit, now: Time): Tx {
    if fact !in s.facts || !fact.CaptureFact? || fact.intent.id !in s.tasks || fact.run !in s.runs then Aborted(NotFound)
    else
      var task := s.tasks[fact.intent.id];
      var run := s.runs[fact.run];
      if !SameCaptureFence(task, run, fact.intent) then Aborted(StaleRun)
      else if fact.head != task.pending.value.expected then Aborted(GitInvariantViolation)
      else if task.origin.project !in s.projects then Aborted(NotFound)
      else if s.projects[task.origin.project].status != ProjectActive then Aborted(InvalidState)
      else StoreCapture(s, task, run.id, fact.head, canonical, now)
  }

  function CaptureFailedRow(task: Task, fatal: bool, now: Time): Task {
    var decision := if fatal then RetryDecision(TaskFailed, task.retryCount)
                    else DecideRetry(task.retryCount, task.origin.maxRetries);
    task.(currentRun := None, pending := None, status := decision.status, retryCount := decision.retryCount,
          nextRunAt := if decision.status == TaskQueued then RetryAt(now, decision.retryCount) else task.nextRunAt,
          version := task.version + 1)
  }

  /** A Git invariant failure stops an active project. */
  function FailProject(s: Ledger, id: ProjectId): Ledger {
    if ProjectIsActive(s, id) then
      PutProject(s, id, s.projects[id].(status := ProjectError, version := s.projects[id].version + 1))
    else s
  }

  /** What projectCaptureFailure writes once its fence passed. */
  ghost function StoreCaptureFailure(s: Ledger, task: Task, fatal: bool, now: Time): Tx {
    var row := CaptureFailedRow(task, fatal, now);
    var s1 := PutTask(s, row);
    var s2 := if fatal then FailProject(s1, task.origin.project) else s1;
    if row.status == TaskFailed then Conclude(s2, row, now) else Committed(s2)
  }

  /** projectCaptureFailure: a failure of another intent is ignored. */
  ghost function ProjectCaptureFailure(s: Ledger, fact: GitFact, now: Time): Tx {
    if fact !in s.facts || !fact.CaptureFailure? || fact.intent.id !in s.tasks || fact.run !in s.runs then Aborted(NotFound)
    else
      var task := s.tasks[fact.intent.id];
      if !SameCaptureFence(task, s.runs[fact.run], fact.intent) then Committed(s)
      else if fact.fatal && task.origin.project !in s.projects then Aborted(NotFound)
      else StoreCaptureFailure(s, task, fact.fatal, now)
  }

  // ---- acceptance ----

  /** acceptFacts and the second transaction of RequestAccept. `seen` and `seenProject` are the
    rows of the first transaction, `head` the commit its task ref resolved to, `canonical` the
    canonical commit resolved in between. */
  function RequestAccept(
    s: Ledger, id: TaskId, integrator: Option<AgentId>, seen: Task, seenProject: Project, head: Commit, canonical: Commit
  ): Tx {
    if id !in s.tasks then Aborted(NotFound)
    else
      var task := s.tasks[id];
      if task.origin.kind == TaskConversation then Aborted(InvalidState)
      else if !task.ActionAvailable() then Aborted(ActionInProgress)
      else if task.status != TaskSubmitted then Aborted(InvalidState)
      else if task.result.None? then Aborted(GitInvariantViolation)
      else if task.origin.project !in s.projects then Aborted(NotFound)
      else
        var project := s.projects[task.origin.project];
        var selected := if integrator.Some? then integrator else project.integrator;
        if project.status != ProjectActive then Aborted(InvalidState)
        else if selected.None? then Aborted(IntegrationAgentRequired)
        else if selected.value !in s.agents then Aborted(NotFound)
        else if s.agents[selected.value] != AgentActive then Aborted(InvalidState)
        else if task.version != seen.version || task.result != seen.result then Aborted(VersionConflict)
        else if project.version != seenProject.version then Aborted(VersionConflict)
        else if head != task.result.value.head then Aborted(GitInvariantViolation)
        else
          var intent := Pending(Advance, s.nextId, task.version + 1, task.result.value.run, canonical, Some(head));
          Committed(PutTask(s, task.(accepted := selected, pending := Some(intent), version := task.version + 1))
                    .(nextId := s.nextId + 1))
  }

  // ---- advance projections ----

  /** sameAdvanceFence */
  predicate SameAdvanceFence(task: Task, intent: Task) {
    && task.status == TaskSubmitted
    && task.pending.Some? && intent.pending.Some?
    && task.pending.value.action == Advance
    && task.pending.value.id == intent.pending.value.id
    && task.version == intent.pending.value.version
    && task.pending.value.version == intent.pending.value.version
    && task.pending.value.expected == intent.pending.value.expected
    && task.pending.value.target == intent.pending.value.target
    && task.result == intent.result
    && task.accepted == intent.accepted
  }

  /** Both projections of a reported canonical commit refresh the cached one. */
  function CacheCanonical(s: Ledger, id: ProjectId, actual: Commit): Ledger
    requires id in s.projects
  {
    var project := s.projects[id];
    if project.cachedCanonical == Some(actual) then s
    else PutProject(s, id, project.(cachedCanonical := Some(actual), version := project.version + 1))
  }

  function CompletedRow(task: Task, actual: Commit): Task {
    task.(status := TaskCompleted, finalCanonical := Some(actual), version := task.version + 1)
  }

  /** A completed integration task completes its source first. */
  ghost function CompleteSource(s: Ledger, integration: Task, actual: Commit, now: Time): Tx {
    if integration.origin.kind != TaskIntegration then Committed(s)
    else if integration.origin.source.None? || integration.origin.source.value.task !in s.tasks then Aborted(NotFound)
    else
      var source := s.tasks[integration.origin.source.value.task];
      if !IntegrationSourceFence(source, integration) then Aborted(VersionConflict)
      else
        var row := CompletedRow(source, actual);
        Conclude(PutTask(s, row), row, now)
  }

  predicate AdvanceProjectable(s: Ledger, fact: GitFact) {
    fact in s.facts && (fact.AdvanceFact? || fact.AdvanceFailure?) && fact.intent.id in s.tasks
  }

  /** What finalizeSuccessfulAdvance writes once its fence passed. */
  ghost function StoreCompletion(s: Ledger, task: Task, actual: Commit, now: Time): Tx
    requires task.origin.project in s.projects
  {
    var s1 := CacheCanonical(s, task.origin.project, actual);
    var s2 :- CompleteSource(s1, task, actual, now);
    var row := CompletedRow(task, actual).(pending := None);
    var s3 :- Dispose(PutTask(s2, row), row, now);
    if task.origin.kind == TaskIntegration then Committed(s3) else NotifyParent(s3, row, now)
  }

  /** finalizeSuccessfulAdvance */
  ghost function FinalizeSuccess(s: Ledger, fact: GitFact, now: Time): Tx {
    if !AdvanceProjectable(s, fact) || !fact.AdvanceFact? || fact.outcome == AdvanceStale then Aborted(NotFound)
    else
      var task := s.tasks[fact.intent.id];
      if !SameAdvanceFence(task, fact.intent) then Aborted(VersionConflict)
      else if task.origin.project !in s.projects then Aborted(NotFound)
      else if s.projects[task.origin.project].status != ProjectActive then Aborted(InvalidState)
      else StoreCompletion(s, task, fact.actual, now)
  }

  function LinkedRow(task: Task, integration: TaskId): Task {
    task.(link := Some(integration), pending := None, version := task.version + 1)
  }

  function IntegrationTask(id: TaskId, source: Task, actual: Commit, now: Time): Task
    requires source.result.Some?
  {
    Task(id, Origin(source.origin.project, TaskIntegration, None, source.accepted, source.origin.priority, now,
                    source.origin.maxRetries, Some(actual), Some(Source(source.id, source.result.value)), source.version),
         TaskQueued, None, 0, now, 0, None, None, None, None, None, false, 1)
  }

  /** An integration that lost the race gets another run in its workspace. */
  function RestartIntegration(s: Ledger, task: Task, now: Time): Tx {
    if task.origin.source.None? || task.origin.source.value.task !in s.tasks || task.origin.assignee.None?
    then Aborted(NotFound)
    else if !IntegrationSourceFence(s.tasks[task.origin.source.value.task], task) then Aborted(VersionConflict)
    else
      var row := task.(status := TaskQueued, currentRun := None, nextRunAt := now, pending := None,
                       version := task.version + 1);
      Committed(InsertMessage(PutTask(s, row), task.origin.project, task.id,
                              ToAgent(task.origin.assignee.value), true, 3, now))
  }

  /** Any other result gets an integration task, linked to it at its new version. */
  function OpenIntegration(s: Ledger, task: Task, actual: Commit, now: Time): Tx {
    if task.accepted.None? || task.accepted.value !in s.agents || task.result.None? then Aborted(NotFound)
    else if s.agents[task.accepted.value] == AgentArchived then Aborted(GitInvariantViolation)
    else
      var linked := LinkedRow(task, s.nextId);
      var integration := IntegrationTask(s.nextId, linked, actual, now);
      Committed(InsertMessage(PutTask(PutTask(s, linked), integration).(nextId := s.nextId + 1),
                              task.origin.project, integration.id, ToAgent(task.accepted.value), true, 3, now))
  }

  /** finalizeStaleAdvance */
  function FinalizeStale(s: Ledger, fact: GitFact, now: Time): Tx {
    if !AdvanceProjectable(s, fact) || !fact.AdvanceFact? || fact.outcome != AdvanceStale then Aborted(NotFound)
    else
      var task := s.tasks[fact.intent.id];
      if !SameAdvanceFence(task, fact.intent) then Aborted(VersionConflict)
      else if task.origin.project !in s.projects then Aborted(NotFound)
      else if s.projects[task.origin.project].status != ProjectActive then Aborted(InvalidState)
      else
        var s1 := CacheCanonical(s, task.origin.project, fact.actual);
        if task.origin.kind == TaskIntegration then RestartIntegration(s1, task, now)
        else OpenIntegration(s1, task, fact.actual, now)
  }

  /** What projectAdvanceInvariantFailure writes once its fence passed. */
  ghost function StoreAdvanceFailure(s: Ledger, task: Task, now: Time): Tx {
    var row := task.(status := TaskFailed, pending := None, version := task.version + 1);
    Conclude(FailProject(PutTask(s, row), task.origin.project), row, now)
  }

  /** projectAdvanceInvariantFailure: a failure of another intent is ignored. */
  ghost function ProjectAdvanceFailure(s: Ledger, fact: GitFact, now: Time): Tx {
    if !AdvanceProjectable(s, fact) || !fact.AdvanceFailure? then Aborted(NotFound)
    else
      var task := s.tasks[fact.intent.id];
      if !SameAdvanceFence(task, fact.intent) then Committed(s)
      else if task.origin.project !in s.projects then Aborted(NotFound)
      else StoreAdvanceFailure(s, task, now)
  }
}
