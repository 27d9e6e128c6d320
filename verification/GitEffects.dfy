/** What accepting a result and projecting a Git fact do, column by column: when they are accepted, which
  columns they write, and that they write nothing else.
 */
module GitEffects {
  import opened Commits
  import opened Model
  import opened Tables
  import opened MessageSteps
  import opened RunSteps
  import opened TaskSteps
  import opened GitSteps
  import opened System
  import opened Invariant
  import opened Evolution
  import opened RowChanges
  import opened MessageProofs
  import opened MessageEffects
  import opened Disposal
  import opened GitProofs
  import opened AdvanceProofs
  import opened Safety
  import opened Intents
  import opened TerminalEffects
  import AdvanceLoop

  function WithTask(s: Ledger, row: Task): Ledger {
    s.(tasks := s.tasks[row.id := row])
  }

  /** A report counts for the row as it was read, as long as nobody wrote it since. */
  ghost predicate StillRead(s: Ledger, fact: GitFact) {
    fact in s.facts && fact.intent.id in s.tasks && s.tasks[fact.intent.id] == fact.intent
  }

  lemma ReportedIntent(s: Ledger, fact: GitFact)
    requires Reachable(s) && fact in s.facts
    ensures fact.intent in s.intents && fact.intent.pending.Some? && fact.intent.id in s.tasks
    ensures fact.CaptureFact? ==>
              fact.intent.pending.value.action == Capture && fact.run == fact.intent.pending.value.run
              && fact.head == fact.intent.pending.value.expected && CapturedAncestry(fact.intent.origin, fact.head)
    ensures fact.CaptureFailure? ==>
              fact.intent.pending.value.action == Capture && fact.run == fact.intent.pending.value.run
    ensures fact.AdvanceFact? || fact.AdvanceFailure? ==> fact.intent.pending.value.action == Advance
  {
    hide InvExcept, Reachable, IsAncestor, TaskFits;
    ReachableHolds(s);
    FactAt(s, {}, fact);
  }

  lemma RowIsThere(s: Ledger, k: TaskId)
    requires Inv(s) && k in s.tasks
    ensures s.tasks[k].id == k && TaskOk(s, {}, s.tasks[k])
    ensures s.tasks[k].origin.project in s.projects
  {
    hide InvExcept, TaskFits, CurrentRunFits, PairFits;
    TaskAt(s, {}, k);
  }

  // ---- a captured result ----

  predicate HasEnded(s: Ledger, run: RunId) {
    run in s.runs && s.runs[run].state != RunStarting && s.runs[run].state != RunActive
  }

  /** The row a capture leaves: its result is the frozen head, held under the ref of its task and run. The
    result of an integration is accepted at once, for the canonical commit just resolved. */
  ghost predicate ResultStored(was: Task, after: Task, fact: GitFact, canonical: Commit, operation: OperationId)
    requires fact.CaptureFact?
  {
    && after == was.(status := TaskSubmitted, currentRun := None, version := was.version + 1,
                     result := Some(Result(fact.head, fact.run, TaskRef(was.id, fact.run))),
                     accepted := after.accepted, pending := after.pending)
    && if was.origin.kind == TaskIntegration then
         && after.accepted == was.origin.assignee
         && after.pending == Some(Pending(Advance, operation, after.version, fact.run, canonical, Some(fact.head)))
       else after.accepted == was.accepted && after.pending == None
  }

  lemma StoredRows(was: Task, fact: GitFact, canonical: Commit, operation: OperationId)
    requires fact.CaptureFact?
    ensures var row := SubmittedRow(was, fact.run, fact.head);
            if was.origin.kind == TaskIntegration then
              ResultStored(was, IntegrationSubmittedRow(row, fact.run, fact.head, operation, canonical), fact, canonical, operation)
            else ResultStored(was, row, fact, canonical, operation)
  {
  }

  lemma CaptureIsAcceptedExactly(s: Ledger, fact: GitFact, canonical: Commit, now: Time)
    requires Reachable(s)
    ensures FinalizeCapture(s, fact, canonical, now).Committed? <==>
              && fact.CaptureFact? && StillRead(s, fact) && HasEnded(s, fact.run)
              && ProjectIsActive(s, fact.intent.origin.project)
  {
    hide InvExcept, Reachable, StoreCapture, SameCaptureFence, TaskOk, CapturedAncestry;
    ReachableHolds(s);
    if fact in s.facts && fact.CaptureFact? {
      ReportedIntent(s, fact);
      RowIsThere(s, fact.intent.id);
      if fact.run in s.runs {
        CaptureFenceIsExact(s, fact.intent);
        if SameCaptureFence(s.tasks[fact.intent.id], s.runs[fact.run], fact.intent)
           && ProjectIsActive(s, fact.intent.origin.project) {
          FinalizeCaptureCommits(s, fact, canonical, now);
        }
      }
    }
    if FinalizeCapture(s, fact, canonical, now).Committed? {
      hide FinalizeCapture;
      CaptureNeeds(s, fact, canonical, now);
    }
  }

  lemma CaptureNeeds(s: Ledger, fact: GitFact, canonical: Commit, now: Time)
    requires FinalizeCapture(s, fact, canonical, now).Committed?
    ensures fact in s.facts && fact.CaptureFact? && fact.intent.id in s.tasks && fact.run in s.runs
    ensures SameCaptureFence(s.tasks[fact.intent.id], s.runs[fact.run], fact.intent)
    ensures ProjectIsActive(s, s.tasks[fact.intent.id].origin.project)
  {
    hide StoreCapture, SameCaptureFence;
  }

  /** A capture is projected exactly once, for the row it was read from. The row is stored, and the task is
    concluded; an integration keeps its parent waiting and only hands on its messages. */
  lemma CaptureStoresResult(s: Ledger, fact: GitFact, canonical: Commit, now: Time)
    requires Reachable(s) && FinalizeCapture(s, fact, canonical, now).Committed?
    ensures fact.CaptureFact? && fact.intent.id in s.tasks
    ensures var s1 := FinalizeCapture(s, fact, canonical, now).ledger; var was := s.tasks[fact.intent.id];
            && was.id in s1.tasks && s1.tasks[was.id].id == was.id
            && ResultStored(was, s1.tasks[was.id], fact, canonical, s.nextId)
            && (if was.origin.kind == TaskIntegration then
                  MessagesSettled(WithTask(s, s1.tasks[was.id]).(nextId := s.nextId + 1), s1.tasks[was.id], now, s1)
                else Concluded(WithTask(s, s1.tasks[was.id]), s1.tasks[was.id], now, s1))
  {
    hide InvExcept, Reachable, FinalizeCapture, TaskMayBecome, PairFits, Conclude, Dispose, Concluded,
         MessagesSettled, ResultStored, IntegrationSourceFence, CapturedAncestry, Evolves;
    ReachableHolds(s);
    CaptureNeeds(s, fact, canonical, now);
    ReportedIntent(s, fact);
    var was := s.tasks[fact.intent.id];
    CapturesFact(s, fact);
    StoredRows(was, fact, canonical, s.nextId);
    CaptureIsStored(s, fact, canonical, now);
    if was.origin.kind != TaskIntegration {
      SubmitFits(s, was, fact);
      LeaveAndConclude(s, SubmittedRow(was, fact.run, fact.head), now);
    } else {
      IntegrationSubmitFits(s, was, fact, s.nextId, canonical);
      var row := IntegrationSubmittedRow(SubmittedRow(was, fact.run, fact.head), fact.run, fact.head, s.nextId, canonical);
      BumpedFits(s, row);
      NextIdGrows(s, {}, s.(nextId := s.nextId + 1));
      LeaveAndDispose(s.(nextId := s.nextId + 1), row, now);
    }
    hide TaskOk, Captures;
  }

  lemma CaptureIsStored(s: Ledger, fact: GitFact, canonical: Commit, now: Time)
    requires Inv(s) && FinalizeCapture(s, fact, canonical, now).Committed?
    ensures fact.intent.id in s.tasks && s.tasks[fact.intent.id].id == fact.intent.id
    ensures fact.CaptureFact?
    ensures var was := s.tasks[fact.intent.id]; var row := SubmittedRow(was, fact.run, fact.head);
            var s1 := FinalizeCapture(s, fact, canonical, now).ledger;
            if was.origin.kind != TaskIntegration then Conclude(PutTask(s, row), row, now) == Committed(s1)
            else
              var advancing := IntegrationSubmittedRow(row, fact.run, fact.head, s.nextId, canonical);
              Dispose(PutTask(s.(nextId := s.nextId + 1), advancing), advancing, now) == Committed(s1)
  {
    hide InvExcept, Conclude, Dispose, IntegrationSourceFence, TaskFits, CurrentRunFits, PairFits, NamesFit, RunFits;
    TaskAt(s, {}, fact.intent.id);
    RunAt(s, {}, fact.run);
    var was := s.tasks[fact.intent.id];
    var advancing := IntegrationSubmittedRow(SubmittedRow(was, fact.run, fact.head), fact.run, fact.head, s.nextId, canonical);
    assert PutTask(s.(nextId := s.nextId + 1), advancing) == PutTask(s, advancing).(nextId := s.nextId + 1);
  }

  // ---- a capture that failed ----

  /** The task gets another run while it has retries left, unless Git is broken; then it fails. */
  predicate CaptureGivenUp(was: Task, after: Task, fatal: bool, now: Time) {
    var again := !fatal && was.retryCount < was.origin.maxRetries;
    && after == was.(status := if again then TaskQueued else TaskFailed, currentRun := None, pending := None,
                     retryCount := if again then was.retryCount + 1 else was.retryCount,
                     nextRunAt := after.nextRunAt, version := was.version + 1)
    && after.nextRunAt == (if again then RetryAt(now, after.retryCount) else was.nextRunAt)
  }

  /** An active project stops on a broken repository; any other stays as it is. */
  ghost predicate ProjectStopped(s: Ledger, id: ProjectId, s1: Ledger) {
    && id in s.projects && id in s1.projects && s1 == s.(projects := s.projects[id := s1.projects[id]])
    && var was := s.projects[id];
    && s1.projects[id] == if was.status == ProjectActive then was.(status := ProjectError, version := was.version + 1) else was
  }

  /** The row is stored, the project stops if Git is broken, and a task that failed is concluded. */
  ghost predicate GivenUpThrough(s: Ledger, row: Task, fatal: bool, now: Time, s0: Ledger, s1: Ledger) {
    && (if fatal then ProjectStopped(WithTask(s, row), row.origin.project, s0) else s0 == WithTask(s, row))
    && (if row.status == TaskFailed then Concluded(s0, row, now, s1) else s1 == s0)
  }

  lemma FailStops(s: Ledger, id: ProjectId)
    requires id in s.projects
    ensures ProjectStopped(s, id, FailProject(s, id))
  {
    assert s.projects[id := s.projects[id]] == s.projects;
  }

  /** A reported failure is projected once; a failure of a row that was written since changes nothing. */
  lemma CaptureFailureGivesUp(s: Ledger, fact: GitFact, now: Time)
    requires Reachable(s)
    ensures ProjectCaptureFailure(s, fact, now).Committed? <==>
              fact in s.facts && fact.CaptureFailure? && fact.run in s.runs
    ensures ProjectCaptureFailure(s, fact, now).Committed? ==>
              var s1 := ProjectCaptureFailure(s, fact, now).ledger;
              fact.CaptureFailure?
              && if StillRead(s, fact) && HasEnded(s, fact.run) then
                   var was := s.tasks[fact.intent.id];
                   && was.id in s1.tasks && s1.tasks[was.id].id == was.id
                   && CaptureGivenUp(was, s1.tasks[was.id], fact.fatal, now)
                   && exists s0 :: GivenUpThrough(s, s1.tasks[was.id], fact.fatal, now, s0, s1)
                 else s1 == s
  {
    hide InvExcept, Reachable, ProjectCaptureFailure, SameCaptureFence, GivenUpThrough, CaptureGivenUp, TaskOk;
    ReachableHolds(s);
    FailureNeeds(s, fact, now);
    if fact in s.facts && fact.CaptureFailure? && fact.run in s.runs {
      ReportedIntent(s, fact);
      CaptureFailureCommits(s, fact, now);
      CaptureFenceIsExact(s, fact.intent);
      RowIsThere(s, fact.intent.id);
      if StillRead(s, fact) && HasEnded(s, fact.run) {
        CaptureFailureRows(s, fact, now);
      } else {
        FailureIgnored(s, fact, now);
      }
    }
  }

  lemma FailureNeeds(s: Ledger, fact: GitFact, now: Time)
    ensures ProjectCaptureFailure(s, fact, now).Committed? ==>
              fact in s.facts && fact.CaptureFailure? && fact.run in s.runs && fact.intent.id in s.tasks
  {
    hide StoreCaptureFailure, SameCaptureFence;
  }

  lemma FailureIgnored(s: Ledger, fact: GitFact, now: Time)
    requires fact in s.facts && fact.CaptureFailure? && fact.run in s.runs && fact.intent.id in s.tasks
    requires !SameCaptureFence(s.tasks[fact.intent.id], s.runs[fact.run], fact.intent)
    ensures ProjectCaptureFailure(s, fact, now) == Committed(s)
  {
    hide SameCaptureFence;
  }

  lemma CaptureFailureRows(s: Ledger, fact: GitFact, now: Time)
    requires Inv(s) && fact in s.facts && fact.CaptureFailure? && fact.intent.id in s.tasks && fact.run in s.runs
    requires SameCaptureFence(s.tasks[fact.intent.id], s.runs[fact.run], fact.intent)
    ensures ProjectCaptureFailure(s, fact, now).Committed?
    ensures var s1 := ProjectCaptureFailure(s, fact, now).ledger; var was := s.tasks[fact.intent.id];
            && was.id == fact.intent.id && was.id in s1.tasks && s1.tasks[was.id].id == was.id
            && CaptureGivenUp(was, s1.tasks[was.id], fact.fatal, now)
            && exists s0 :: GivenUpThrough(s, s1.tasks[was.id], fact.fatal, now, s0, s1)
  {
    hide InvExcept, TaskMayBecome, PairFits, TaskOk, Conclude, FailProject, Captures, Evolves, ProjectStopped, Concluded;
    var was := s.tasks[fact.intent.id];
    CapturesFact(s, fact);
    RowIsThere(s, fact.intent.id);
    CaptureFailedFits(s, was, fact, now);
    CaptureFailureCommits(s, fact, now);
    var row := CaptureFailedRow(was, fact.fatal, now);
    var s0 := if fact.fatal then FailProject(PutTask(s, row), was.origin.project) else PutTask(s, row);
    FailStops(PutTask(s, row), was.origin.project);
    if row.status == TaskFailed {
      FailAndConclude(s, row, fact.fatal, now);
    }
    var s1 := ProjectCaptureFailure(s, fact, now).ledger;
    assert s1.tasks[was.id] == row;
    assert GivenUpThrough(s, row, fact.fatal, now, s0, s1);
  }

  // ---- acceptance ----

  /** Who integrates if the advance is stale: the agent that was chosen, or else the project's. */
  function Integrator(s: Ledger, project: ProjectId, chosen: Option<AgentId>): Option<AgentId>
    requires project in s.projects
  {
    if chosen.Some? then chosen else s.projects[project].integrator
  }

  /** A result is accepted once, with the rows the first transaction saw, for an active integrator, and only
    if its ref still holds it; the intent targets exactly that head. */
  lemma AcceptStoresIntent(
    s: Ledger, id: TaskId, chosen: Option<AgentId>, seen: Task, seenProject: Project, head: Commit, canonical: Commit
  )
    requires Inv(s)
    ensures RequestAccept(s, id, chosen, seen, seenProject, head, canonical).Committed? <==>
              && id in s.tasks && s.tasks[id].status == TaskSubmitted && s.tasks[id].pending == None && s.tasks[id].link == None
              && s.tasks[id].version == seen.version && s.tasks[id].result == seen.result
              && s.tasks[id].result.Some? && s.tasks[id].result.value.head == head
              && s.tasks[id].origin.project in s.projects
              && s.projects[s.tasks[id].origin.project].status == ProjectActive
              && s.projects[s.tasks[id].origin.project].version == seenProject.version
              && Integrator(s, s.tasks[id].origin.project, chosen).Some?
              && Integrator(s, s.tasks[id].origin.project, chosen).value in s.agents
              && s.agents[Integrator(s, s.tasks[id].origin.project, chosen).value] == AgentActive
    ensures RequestAccept(s, id, chosen, seen, seenProject, head, canonical).Committed? ==>
              var s1 := RequestAccept(s, id, chosen, seen, seenProject, head, canonical).ledger; var was := s.tasks[id];
              && id in s1.tasks && s1 == s.(tasks := s.tasks[id := s1.tasks[id]], nextId := s.nextId + 1)
              && was.origin.project in s.projects && was.result.Some?
              && s1.tasks[id] == was.(accepted := Integrator(s, was.origin.project, chosen), version := was.version + 1,
                                      pending := Some(Pending(Advance, s.nextId, was.version + 1, was.result.value.run, canonical,
                                                              Some(was.result.value.head))))
  {
    hide InvExcept, CurrentRunFits, PairFits, ResultFits;
    if id in s.tasks {
      TaskAt(s, {}, id);
    }
  }

  // ---- an advance that succeeded ----

  /** The project remembers the reported commit. */
  ghost predicate CanonicalCached(s: Ledger, id: ProjectId, actual: Commit, s1: Ledger) {
    && id in s.projects && id in s1.projects && s1 == s.(projects := s.projects[id := s1.projects[id]])
    && var was := s.projects[id];
    && s1.projects[id] == if was.cachedCanonical == Some(actual) then was
                          else was.(cachedCanonical := Some(actual), version := was.version + 1)
  }

  lemma CacheCaches(s: Ledger, id: ProjectId, actual: Commit)
    requires id in s.projects
    ensures CanonicalCached(s, id, actual, CacheCanonical(s, id, actual))
  {
    assert s.projects[id := s.projects[id]] == s.projects;
  }

  /** The row completed by an advance to this commit. */
  predicate CompletedAt(was: Task, after: Task, actual: Commit) {
    after == was.(status := TaskCompleted, finalCanonical := Some(actual), pending := None, version := was.version + 1)
  }

  /** An integration completes its source first: the source is concluded like any other completed task. */
  ghost predicate SourceCompleted(s: Ledger, was: Task, actual: Commit, now: Time, s1: Ledger) {
    if was.origin.kind != TaskIntegration then s1 == s
    else
      && was.origin.source.Some? && was.origin.source.value.task in s.tasks
      && exists row :: CompletedAt(s.tasks[was.origin.source.value.task], row, actual) && Concluded(WithTask(s, row), row, now, s1)
  }

  lemma AdvanceIsAcceptedExactly(s: Ledger, fact: GitFact, now: Time)
    requires Reachable(s)
    ensures FinalizeSuccess(s, fact, now).Committed? <==>
              && fact.AdvanceFact? && fact.outcome != AdvanceStale && StillRead(s, fact)
              && ProjectIsActive(s, fact.intent.origin.project)
    ensures FinalizeStale(s, fact, now).Committed? <==>
              && fact.AdvanceFact? && fact.outcome == AdvanceStale && StillRead(s, fact)
              && ProjectIsActive(s, fact.intent.origin.project)
  {
    hide InvExcept, Reachable, FinalizeSuccess, FinalizeStale, SameAdvanceFence;
    ReachableHolds(s);
    AdvanceNeeds(s, fact, now);
    if fact in s.facts && fact.AdvanceFact? {
      ReportedIntent(s, fact);
      AdvanceFenceIsExact(s, fact.intent);
      if StillRead(s, fact) && ProjectIsActive(s, fact.intent.origin.project) {
        if fact.outcome == AdvanceStale {
          FinalizeStaleCommits(s, fact, now);
        } else {
          FinalizeSuccessCommits(s, fact, now);
        }
      }
    }
  }

  lemma AdvanceNeeds(s: Ledger, fact: GitFact, now: Time)
    ensures FinalizeSuccess(s, fact, now).Committed? || FinalizeStale(s, fact, now).Committed? ==>
              && fact in s.facts && fact.AdvanceFact? && fact.intent.id in s.tasks
              && SameAdvanceFence(s.tasks[fact.intent.id], fact.intent)
              && ProjectIsActive(s, s.tasks[fact.intent.id].origin.project)
    ensures FinalizeSuccess(s, fact, now).Committed? ==> fact.outcome != AdvanceStale
    ensures FinalizeStale(s, fact, now).Committed? ==> fact.outcome == AdvanceStale
  {
    hide StoreCompletion, SameAdvanceFence, RestartIntegration, OpenIntegration;
  }

  /** What a successful advance writes, step by step: the cached commit, the source of an integration, the
    task itself, its messages, and the report to its parent unless it is an integration. */
  ghost predicate CompletionStored(s: Ledger, fact: GitFact, now: Time, s1: Ledger, a: Ledger, b: Ledger, c: Ledger)
    requires fact.AdvanceFact? && fact.intent.id in s.tasks
  {
    var was := s.tasks[fact.intent.id];
    && CanonicalCached(s, was.origin.project, fact.actual, a)
    && SourceCompleted(a, was, fact.actual, now, b)
    && was.id in b.tasks && b.tasks[was.id] == was && was.id in s1.tasks && s1.tasks[was.id].id == was.id
    && CompletedAt(was, s1.tasks[was.id], fact.actual)
    && MessagesSettled(WithTask(b, s1.tasks[was.id]), s1.tasks[was.id], now, c)
    && if was.origin.kind == TaskIntegration then s1 == c else ParentIsTold(c, s1.tasks[was.id], now, s1)
  }

  lemma AdvanceCompletes(s: Ledger, fact: GitFact, now: Time)
    requires Reachable(s) && FinalizeSuccess(s, fact, now).Committed?
    ensures fact.AdvanceFact? && fact.intent.id in s.tasks
    ensures exists a, b, c :: CompletionStored(s, fact, now, FinalizeSuccess(s, fact, now).ledger, a, b, c)
  {
    hide InvExcept, Reachable, FinalizeSuccess, SameAdvanceFence, CompletionStored;
    ReachableHolds(s);
    AdvanceNeeds(s, fact, now);
    SuccessSteps(s, fact, now);
  }

  lemma SuccessSteps(s: Ledger, fact: GitFact, now: Time)
    requires Inv(s) && fact in s.facts && fact.AdvanceFact? && fact.outcome != AdvanceStale && fact.intent.id in s.tasks
    requires SameAdvanceFence(s.tasks[fact.intent.id], fact.intent)
    requires ProjectIsActive(s, s.tasks[fact.intent.id].origin.project)
    ensures FinalizeSuccess(s, fact, now).Committed?
    ensures exists a, b, c :: CompletionStored(s, fact, now, FinalizeSuccess(s, fact, now).ledger, a, b, c)
  {
    hide InvExcept, Evolves, TaskOk, FactOk, Contained, CacheCanonical, CompleteSource, Dispose, NotifyParent, Concludes,
         MessagesSettled, ParentIsTold, CanonicalCached, SourceCompleted, Concluded;
    var was := s.tasks[fact.intent.id];
    AdvancesFact(s, fact);
    AdvanceContains(s, was, fact);
    ActualIsPast(s, was, fact);
    RowIsThere(s, fact.intent.id);
    CacheCaches(s, was.origin.project, fact.actual);
    CacheKeeps(s, {}, was.origin.project, fact.actual);
    var a := CacheCanonical(s, was.origin.project, fact.actual);
    ContainedStays(s, a, was, fact.actual);
    CompleteSourceKeeps(a, was, fact.actual, now);
    var b := CompleteSource(a, was, fact.actual, now).ledger;
    SourceSteps(a, was, fact.actual, now);
    ContainedStays(a, b, was, fact.actual);
    FinishIntegrated(b, was, fact.actual, now);
    var row := CompletedRow(was, fact.actual).(pending := None);
    var c := Dispose(PutTask(b, row), row, now).ledger;
    NotifyTellsParent(c, {}, row, now);
    var s1 := FinalizeSuccess(s, fact, now).ledger;
    if was.origin.kind != TaskIntegration {
      TellingSparesChild(c, row, now, s1);
    }
    assert CompletionStored(s, fact, now, s1, a, b, c);
  }

  lemma SourceSteps(s: Ledger, was: Task, actual: Commit, now: Time)
    requires Inv(s) && was.id in s.tasks && s.tasks[was.id] == was && was.status == TaskSubmitted && Contained(s, was, actual)
    ensures CompleteSource(s, was, actual, now).Committed?
    ensures SourceCompleted(s, was, actual, now, CompleteSource(s, was, actual, now).ledger)
  {
    hide InvExcept, Contained, Concluded, Conclude, Evolves;
    CompleteSourceKeeps(s, was, actual, now);
    if was.origin.kind == TaskIntegration {
      hide CompleteSource;
      var source := s.tasks[was.origin.source.value.task];
      TaskAt(s, {}, was.id);
      LinkedIsIdle(s, was);
      assert CompletedAt(source, CompletedRow(source, actual), actual);
    }
    hide TaskOk;
  }

  lemma LinkedIsIdle(s: Ledger, integration: Task)
    requires Inv(s) && integration.id in s.tasks && s.tasks[integration.id] == integration
    requires integration.origin.kind == TaskIntegration && integration.Open()
    ensures integration.origin.source.Some? && integration.origin.source.value.task in s.tasks
    ensures s.tasks[integration.origin.source.value.task].pending.None?
  {
    hide InvExcept, NamesFit, CurrentRunFits, ResultFits;
    TaskAt(s, {}, integration.id);
    TaskAt(s, {}, integration.origin.source.value.task);
  }

  // ---- an advance that was stale ----

  /** An integration gets another run in its workspace, woken by a message of its own. */
  ghost predicate IntegrationRestarted(s: Ledger, was: Task, now: Time, s1: Ledger) {
    && was.origin.assignee.Some? && was.id in s1.tasks
    && s1 == s.(tasks := s.tasks[was.id := s1.tasks[was.id]], messages := s1.messages, nextId := s.nextId + 1)
    && s1.tasks[was.id] == was.(status := TaskQueued, nextRunAt := now, pending := None, version := was.version + 1)
    && AddsMessage(s, s.nextId, was.origin.project, was.id, ToAgent(was.origin.assignee.value), true, 3, now, s1)
  }

  /** The new integration task starts from the reported canonical commit and works on this result, for the agent
    that was accepted with it. */
  predicate IntegrationOpened(was: Task, i: Task, actual: Commit, now: Time) {
    && was.result.Some? && i.origin.kind == TaskIntegration && i.origin.project == was.origin.project
    && i.origin.parent == None && i.origin.assignee == was.accepted && i.origin.priority == was.origin.priority
    && i.origin.createdAt == now && i.origin.maxRetries == was.origin.maxRetries
    && i.origin.base == Some(actual) && i.origin.source == Some(Source(was.id, was.result.value))
    && i.origin.acceptVersion == was.version + 1
    && i.status == TaskQueued && i.nextRunAt == now && i.currentRun == None && i.generation == 0 && i.retryCount == 0
    && i.result == None && i.accepted == None && i.finalCanonical == None && i.link == None && i.pending == None
    && !i.sourceReleased && i.version == 1
  }

  /** Any other result is linked to a new integration task, which a message tells its agent about. */
  ghost predicate ResultLinked(s: Ledger, was: Task, actual: Commit, now: Time, s1: Ledger) {
    var n := s.nextId;
    && n !in s.tasks && n in s1.tasks && was.id in s1.tasks && was.accepted.Some?
    && s1 == s.(tasks := s.tasks[was.id := s1.tasks[was.id]][n := s1.tasks[n]], messages := s1.messages, nextId := n + 2)
    && s1.tasks[was.id] == was.(link := Some(n), pending := None, version := was.version + 1)
    && s1.tasks[n].id == n && IntegrationOpened(was, s1.tasks[n], actual, now)
    && AddsMessage(s, n + 1, was.origin.project, n, ToAgent(was.accepted.value), true, 3, now, s1)
  }

  lemma StaleOpensIntegration(s: Ledger, fact: GitFact, now: Time)
    requires Reachable(s) && FinalizeStale(s, fact, now).Committed?
    ensures fact.AdvanceFact? && fact.intent.id in s.tasks
    ensures var was := s.tasks[fact.intent.id]; var s1 := FinalizeStale(s, fact, now).ledger;
            exists s0 ::
              && CanonicalCached(s, was.origin.project, fact.actual, s0)
              && if was.origin.kind == TaskIntegration then IntegrationRestarted(s0, was, now, s1)
                 else ResultLinked(s0, was, fact.actual, now, s1)
  {
    hide InvExcept, Reachable, RestartIntegration, OpenIntegration, CacheCanonical, CanonicalCached, IntegrationRestarted,
         ResultLinked, TaskOk;
    ReachableHolds(s);
    AdvanceNeeds(s, fact, now);
    var was := s.tasks[fact.intent.id];
    RowIsThere(s, fact.intent.id);
    CacheCaches(s, was.origin.project, fact.actual);
    var s0 := CacheCanonical(s, was.origin.project, fact.actual);
    CachedRows(s, was.origin.project, fact.actual, s0);
    FreshRows(s);
    SubmittedIsIdle(s, fact.intent.id);
    var s1 := FinalizeStale(s, fact, now).ledger;
    if was.origin.kind == TaskIntegration {
      RestartRestarts(s0, was, now);
    } else {
      OpenLinks(s0, was, fact.actual, now);
    }
    assert CanonicalCached(s, was.origin.project, fact.actual, s0);
  }

  lemma CachedRows(s: Ledger, id: ProjectId, actual: Commit, s1: Ledger)
    requires CanonicalCached(s, id, actual, s1)
    ensures s1.tasks == s.tasks && s1.messages == s.messages && s1.nextId == s.nextId
  {
  }

  lemma FreshRows(s: Ledger)
    requires Inv(s)
    ensures s.nextId !in s.tasks && s.nextId !in s.messages && s.nextId + 1 !in s.messages
  {
    hide InvExcept;
    FreshId(s, {});
    assert s.nextId + 1 !in s.messages;
  }

  lemma SubmittedIsIdle(s: Ledger, k: TaskId)
    requires Inv(s) && k in s.tasks
    ensures s.tasks[k].status == TaskSubmitted ==> s.tasks[k].currentRun.None?
  {
    hide InvExcept, NamesFit, PairFits, CurrentRunFits, ResultFits;
    TaskAt(s, {}, k);
  }

  lemma RestartRestarts(s: Ledger, was: Task, now: Time)
    requires was.id in s.tasks && s.tasks[was.id] == was && was.currentRun.None? && s.nextId !in s.messages
    requires RestartIntegration(s, was, now).Committed?
    ensures IntegrationRestarted(s, was, now, RestartIntegration(s, was, now).ledger)
  {
    hide IntegrationSourceFence;
  }

  lemma OpenLinks(s: Ledger, was: Task, actual: Commit, now: Time)
    requires was.id in s.tasks && s.tasks[was.id] == was && s.nextId !in s.tasks && s.nextId + 1 !in s.messages
    requires OpenIntegration(s, was, actual, now).Committed?
    ensures ResultLinked(s, was, actual, now, OpenIntegration(s, was, actual, now).ledger)
  {
  }

  // ---- an advance that can never succeed ----

  /** A broken repository fails the row it was reported for and stops its project; a report about a row that was
    written since changes nothing. */
  lemma FatalAdvanceFailsTask(s: Ledger, fact: GitFact, now: Time)
    requires Reachable(s)
    ensures ProjectAdvanceFailure(s, fact, now).Committed? <==> fact in s.facts && fact.AdvanceFailure?
    ensures ProjectAdvanceFailure(s, fact, now).Committed? ==>
              var s1 := ProjectAdvanceFailure(s, fact, now).ledger;
              if StillRead(s, fact) then
                var was := s.tasks[fact.intent.id];
                && was.id in s1.tasks && s1.tasks[was.id].id == was.id
                && s1.tasks[was.id] == was.(status := TaskFailed, pending := None, version := was.version + 1)
                && exists s0 :: GivenUpThrough(s, s1.tasks[was.id], true, now, s0, s1)
              else s1 == s
  {
    hide InvExcept, Reachable, SameAdvanceFence, StoreAdvanceFailure, GivenUpThrough, TaskOk;
    ReachableHolds(s);
    if fact in s.facts && fact.AdvanceFailure? {
      ReportedIntent(s, fact);
      AdvanceFenceIsExact(s, fact.intent);
      RowIsThere(s, fact.intent.id);
      AdvanceFailureCommits(s, fact, now);
      if StillRead(s, fact) {
        AdvanceFailureRows(s, fact, now);
      }
    }
  }

  lemma AdvanceFailureRows(s: Ledger, fact: GitFact, now: Time)
    requires Inv(s) && fact in s.facts && fact.AdvanceFailure? && fact.intent.id in s.tasks
    requires SameAdvanceFence(s.tasks[fact.intent.id], fact.intent)
    ensures var was := s.tasks[fact.intent.id];
            var row := was.(status := TaskFailed, pending := None, version := was.version + 1);
            && was.id == fact.intent.id && StoreAdvanceFailure(s, was, now).Committed?
            && row.id in StoreAdvanceFailure(s, was, now).ledger.tasks
            && StoreAdvanceFailure(s, was, now).ledger.tasks[row.id] == row
            && exists s0 :: GivenUpThrough(s, row, true, now, s0, StoreAdvanceFailure(s, was, now).ledger)
  {
    hide InvExcept, TaskMayBecome, PairFits, TaskOk, Conclude, FailProject, Advances, Evolves, ProjectStopped, Concluded;
    var was := s.tasks[fact.intent.id];
    AdvancesFact(s, fact);
    RowIsThere(s, fact.intent.id);
    AdvanceFailedFits(s, was, fact);
    var row := was.(status := TaskFailed, pending := None, version := was.version + 1);
    FailStops(PutTask(s, row), was.origin.project);
    FailAndConclude(s, row, true, now);
    assert GivenUpThrough(s, row, true, now, FailProject(PutTask(s, row), was.origin.project),
                          StoreAdvanceFailure(s, was, now).ledger);
  }

  // ---- what an integration starts from ----

  /** In every later state the result of an integration contains the canonical commit the integration was opened
    at, and the result it was opened for. */
  lemma IntegrationContainsItsBase(s: Ledger, fact: GitFact, now: Time, events: seq<Event>)
    requires Reachable(s) && FinalizeStale(s, fact, now).Committed? && fact.intent.origin.kind != TaskIntegration
    ensures fact.AdvanceFact? && fact.intent.id in s.tasks
    ensures var later := RunAll(FinalizeStale(s, fact, now).ledger, events); var i := s.nextId;
            && i in later.tasks && later.tasks[i].origin.base == Some(fact.actual)
            && (later.tasks[i].result.Some? ==>
                  && s.tasks[fact.intent.id].result.Some?
                  && IsAncestor(fact.actual, later.tasks[i].result.value.head)
                  && IsAncestor(s.tasks[fact.intent.id].result.value.head, later.tasks[i].result.value.head))
  {
    hide InvExcept, Reachable, FinalizeStale, RunAll, RunsEvolve, MessagesEvolve, SettingsEvolve, GitEvolves, IsAncestor,
         AddsMessage, CanonicalCached, SameAdvanceFence;
    ReachableHolds(s);
    AdvanceNeeds(s, fact, now);
    ReportedIntent(s, fact);
    AdvanceFenceIsExact(s, fact.intent);
    StaleOpensIntegration(s, fact, now);
    FinalizeStaleKeeps(s, fact, now);
    var s1 := FinalizeStale(s, fact, now).ledger;
    var s0 :| CanonicalCached(s, s.tasks[fact.intent.id].origin.project, fact.actual, s0)
              && ResultLinked(s0, s.tasks[fact.intent.id], fact.actual, now, s1);
    CachedRows(s, s.tasks[fact.intent.id].origin.project, fact.actual, s0);
    RunsKeep(s1, events);
    var later := RunAll(s1, events);
    if later.tasks[s.nextId].result.Some? {
      IntegrationResult(later, s.nextId);
    }
  }

  lemma IntegrationResult(s: Ledger, k: TaskId)
    requires Inv(s) && k in s.tasks && s.tasks[k].result.Some?
    ensures s.tasks[k].origin.base.Some? && IsAncestor(s.tasks[k].origin.base.value, s.tasks[k].result.value.head)
    ensures s.tasks[k].origin.source.Some? ==> IsAncestor(s.tasks[k].origin.source.value.result.head, s.tasks[k].result.value.head)
  {
    hide InvExcept, CurrentRunFits, NamesFit, PairFits, IsAncestor;
    TaskAt(s, {}, k);
  }

  /** So an integration whose canonical commit did not move on is never stale again: with nobody else writing,
    its advance updates or includes. */
  lemma IntegrationAtItsBaseAdvances(s: Ledger, k: TaskId, attempts: nat)
    requires Reachable(s) && k in s.tasks && s.tasks[k].result.Some? && s.tasks[k].origin.project in s.canonical
    requires s.tasks[k].origin.base == Some(s.canonical[s.tasks[k].origin.project]) && attempts > 0
    ensures var race := AdvanceLoop.Race(s.canonical[s.tasks[k].origin.project], [], s.tasks[k].result.value.head, attempts);
            race.Advanced? && race.outcome != AdvanceStale
  {
    hide InvExcept, Reachable, IsAncestor, AdvanceLoop.Race;
    ReachableHolds(s);
    IntegrationResult(s, k);
    AdvanceLoop.Undisturbed(s.canonical[s.tasks[k].origin.project], s.tasks[k].result.value.head, attempts);
  }
}
