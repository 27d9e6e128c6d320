/** What happens to the row of a run that ended: only cleanup reports write it, and only a blocked
  cleanup touches what was recorded about its end.
 */
module Endings {
  import opened Model
  import opened Tables
  import opened MessageSteps
  import opened RunSteps
  import opened TaskSteps
  import opened GitSteps
  import opened ProjectSteps
  import opened System
  import opened Invariant
  import opened RunProofs
  import opened SendProofs
  import opened Safety

  ghost predicate EndedRowsStay(s: Ledger, s1: Ledger) {
    forall k :: k in s.runs && !s.runs[k].Live() ==> k in s1.runs && s1.runs[k] == s.runs[k]
  }

  lemma SameRuns(s: Ledger, s1: Ledger)
    requires s1.runs == s.runs
    ensures EndedRowsStay(s, s1)
  {
  }

  // ---- messages ----

  lemma {:induction false} DisposeAllSameRuns(s: Ledger, task: Task, ids: seq<MessageId>, now: Time)
    requires DisposeAll(s, task, ids, now).Committed?
    ensures DisposeAll(s, task, ids, now).ledger.runs == s.runs
    decreases |ids|
  {
    hide CanReroute;
    if ids != [] {
      DisposeAllSameRuns(DisposeOne(s, task, ids[0], now).ledger, task, ids[1..], now);
    }
  }

  lemma DisposeSameRuns(s: Ledger, task: Task, now: Time)
    requires Dispose(s, task, now).Committed?
    ensures Dispose(s, task, now).ledger.runs == s.runs
  {
    hide DisposeAll;
    DisposeAllSameRuns(s, task, MessagesForTask(s, task.id), now);
  }

  lemma NotifySameRuns(s: Ledger, child: Task, now: Time)
    requires NotifyParent(s, child, now).Committed?
    ensures NotifyParent(s, child, now).ledger.runs == s.runs
  {
    hide ParentListens;
  }

  lemma ConcludeSameRuns(s: Ledger, task: Task, now: Time)
    requires Conclude(s, task, now).Committed?
    ensures Conclude(s, task, now).ledger.runs == s.runs
  {
    hide Dispose, NotifyParent;
    DisposeSameRuns(s, task, now);
    NotifySameRuns(Dispose(s, task, now).ledger, task, now);
  }

  lemma {:induction false} DeliverSameRuns(s: Ledger, run: Run, ids: seq<MessageId>, now: Time)
    requires DeliverEach(s, run, ids, now).Committed?
    ensures DeliverEach(s, run, ids, now).ledger.runs == s.runs
    decreases |ids|
  {
    if ids != [] {
      DeliverSameRuns(DeliverOne(s, run, ids[0], now).ledger, run, ids[1..], now);
    }
  }

  lemma {:induction false} AcknowledgeSameRuns(s: Ledger, project: ProjectId, agent: AgentId, ids: seq<MessageId>)
    requires Acknowledge(s, project, agent, ids).Committed?
    ensures Acknowledge(s, project, agent, ids).ledger.runs == s.runs
    decreases |ids|
  {
    if ids != [] {
      AcknowledgeSameRuns(AcknowledgeOne(s, project, agent, ids[0]).ledger, project, agent, ids[1..]);
    }
  }

  lemma SendSameRuns(s: Ledger, project: ProjectId, agent: AgentId, explicit: Option<TaskId>, wake: bool, now: Time)
    requires SendToAgent(s, project, agent, explicit, wake, now).Committed?
    ensures SendToAgent(s, project, agent, explicit, wake, now).ledger.runs == s.runs
  {
    hide IsOpenConversation;
  }

  lemma MessagesSameRuns(s: Ledger, step: MessageStep, now: Time)
    requires AttemptMessages(s, step, now).Committed?
    ensures AttemptMessages(s, step, now).ledger.runs == s.runs
  {
    hide SendToAgent, DeliverEach, Acknowledge;
    match step
    case StepSend(project, agent, explicit, wake) => SendSameRuns(s, project, agent, explicit, wake, now);
    case StepDeliver(run, ids) => DeliverSameRuns(s, s.runs[run], ids, now);
    case StepAcknowledge(project, agent, ids) => AcknowledgeSameRuns(s, project, agent, ids);
    case StepRetryMessage(_) =>
  }

  // ---- runs ----

  lemma ClaimSparesOthers(s: Ledger, task: TaskId, now: Time)
    requires Inv(s) && Claim(s, task, now).Committed?
    ensures EndedRowsStay(s, Claim(s, task, now).ledger)
  {
    hide InvExcept, Occupancy, LiveRuns;
    FreshId(s, {});
  }

  /** What is written about this run, is written because it is live. */
  lemma OneLiveRowWritten(s: Ledger, run: Run, s1: Ledger)
    requires run.id in s.runs && s.runs[run.id].Live() && s1.runs == s.runs[run.id := run]
    ensures EndedRowsStay(s, s1)
  {
  }

  lemma ActivateWritesLive(s: Ledger, id: RunId, key: RuntimeKey)
    requires Inv(s) && Activate(s, id, key).Committed?
    ensures EndedRowsStay(s, Activate(s, id, key).ledger)
  {
    hide InvExcept, EndedRowsStay, RuntimeFactFence, RunFits;
    RunAt(s, {}, id);
    var s1 := Activate(s, id, key).ledger;
    if s1.runs == s.runs {
      SameRuns(s, s1);
    } else {
      OneLiveRowWritten(s, s1.runs[id], s1);
    }
  }

  lemma OutcomeWritesLive(s: Ledger, id: RunId, outcome: TaskOutcome, seenTask: Task, seenRun: Run, head: Commits.Commit)
    requires Inv(s) && ApplyOutcome(s, id, outcome, seenTask, seenRun, head).Committed?
    ensures EndedRowsStay(s, ApplyOutcome(s, id, outcome, seenTask, seenRun, head).ledger)
  {
    hide InvExcept, EndedRowsStay, OutcomeTask, RunFits;
    RunAt(s, {}, id);
    var s1 := ApplyOutcome(s, id, outcome, seenTask, seenRun, head).ledger;
    OneLiveRowWritten(s, s1.runs[id], s1);
  }

  lemma LaunchWritesLive(s: Ledger, step: RunStep, id: RunId, now: Time)
    requires Inv(s) && AttemptRuns(s, step, now).Committed?
    requires step.StepBeginLaunch? || step.StepContainerCreated? || step.StepStartIssued?
    requires step.run == id
    ensures EndedRowsStay(s, AttemptRuns(s, step, now).ledger)
  {
    hide InvExcept, EndedRowsStay, RuntimeFactFence, RunFits;
    RunAt(s, {}, id);
    var s1 := AttemptRuns(s, step, now).ledger;
    if s1.runs == s.runs {
      SameRuns(s, s1);
    } else {
      OneLiveRowWritten(s, s1.runs[id], s1);
    }
  }

  lemma ReportWritesLive(s: Ledger, step: RunStep, id: RunId, now: Time)
    requires Inv(s) && AttemptRuns(s, step, now).Committed?
    requires step.StepSession? || step.StepHeartbeat? || step.StepRequestStop?
    requires step.run == id
    ensures EndedRowsStay(s, AttemptRuns(s, step, now).ledger)
  {
    hide InvExcept, EndedRowsStay, RuntimeFactFence, RunFits;
    RunAt(s, {}, id);
    var s1 := AttemptRuns(s, step, now).ledger;
    if s1.runs == s.runs {
      SameRuns(s, s1);
    } else {
      OneLiveRowWritten(s, s1.runs[id], s1);
    }
  }

  /** Every report about a run but a cleanup needs it to be live. */
  lemma LiveFactsOnly(s: Ledger, step: RunStep, now: Time)
    requires Inv(s) && !step.StepCleanup? && !step.StepTerminal? && AttemptRuns(s, step, now).Committed?
    ensures EndedRowsStay(s, AttemptRuns(s, step, now).ledger)
  {
    hide Inv, EndedRowsStay, Claim, Activate, ApplyOutcome;
    match step
    case StepClaim(task) => ClaimSparesOthers(s, task, now);
    case StepActivate(run, key) => ActivateWritesLive(s, run, key);
    case StepOutcome(run, outcome, seenTask, seenRun, head) =>
      OutcomeWritesLive(s, run, outcome, seenTask, seenRun, head);
    case StepBeginLaunch(_, _, _, _) => hide AttemptRuns; LaunchWritesLive(s, step, step.run, now);
    case StepContainerCreated(_, _) => hide AttemptRuns; LaunchWritesLive(s, step, step.run, now);
    case StepStartIssued(_, _) => hide AttemptRuns; LaunchWritesLive(s, step, step.run, now);
    case StepSession(_, _, _) => hide AttemptRuns; ReportWritesLive(s, step, step.run, now);
    case StepHeartbeat(_, _) => hide AttemptRuns; ReportWritesLive(s, step, step.run, now);
    case StepRequestStop(_, _, _) => hide AttemptRuns; ReportWritesLive(s, step, step.run, now);
  }

  lemma TerminalEndsLiveOnly(s: Ledger, id: RunId, input: TerminalInput, now: Time)
    requires Inv(s) && RecordTerminal(s, id, input, now).Committed?
    ensures EndedRowsStay(s, RecordTerminal(s, id, input, now).ledger)
  {
    hide Inv, ProjectTerminal, Terminated;
    if s.runs[id].Live() {
      TerminalCommits(s, id, input, now);
    }
  }

  // ---- tasks ----

  lemma CancelStopsLiveOnly(s: Ledger, id: TaskId, reason: string, now: Time)
    requires Inv(s) && CancelTask(s, id, reason, now).Committed?
    ensures EndedRowsStay(s, CancelTask(s, id, reason, now).ledger)
  {
    hide Inv, Conclude, StopCurrentRun, CancelledRow, IntegrationSourceFence, ValidTaskTransition;
    var task := s.tasks[id];
    var s1 := ReleaseSource(s, task).ledger;
    assert s1.runs == s.runs;
    var s2 := StopCurrentRun(s1, task, reason).ledger;
    StopReadsRuns(s, s1, task, reason);
    var row := CancelledRow(s2, task);
    ConcludeSameRuns(PutTask(s2, row), row, now);
  }

  lemma StopReadsRuns(s: Ledger, s1: Ledger, task: Task, reason: string)
    requires Inv(s) && s1.runs == s.runs && StopCurrentRun(s1, task, reason).Committed?
    ensures EndedRowsStay(s, StopCurrentRun(s1, task, reason).ledger)
  {
    hide InvExcept, RunFits;
    if task.currentRun.Some? {
      RunAt(s, {}, task.currentRun.value);
    }
  }

  lemma TasksSpareEndedRuns(s: Ledger, step: TaskStep, now: Time)
    requires Inv(s) && AttemptTasks(s, step, now).Committed?
    ensures EndedRowsStay(s, AttemptTasks(s, step, now).ledger)
  {
    hide Inv, EndedRowsStay, CancelTask, NotifyParent;
    match step
    case StepCancel(task, reason) => CancelStopsLiveOnly(s, task, reason, now);
    case StepComplete(id) =>
      var row := s.tasks[id].(status := TaskCompleted, result := None, version := s.tasks[id].version + 1);
      NotifySameRuns(PutTask(s, row), row, now);
      SameRuns(s, AttemptTasks(s, step, now).ledger);
    case _ =>
      hide CompleteTask, Authenticated, UsableSource, Reenabled, ClosedMessages, ValidTaskTransition;
      SameRuns(s, AttemptTasks(s, step, now).ledger);
  }

  // ---- projections ----

  lemma CaptureSameRuns(s: Ledger, fact: GitFact, canonical: Commits.Commit, now: Time)
    requires FinalizeCapture(s, fact, canonical, now).Committed?
    ensures FinalizeCapture(s, fact, canonical, now).ledger.runs == s.runs
  {
    hide Conclude, Dispose, SameCaptureFence, IntegrationSourceFence;
    var task := s.tasks[fact.intent.id];
    var row := SubmittedRow(task, s.runs[fact.run].id, fact.head);
    if task.origin.kind != TaskIntegration {
      ConcludeSameRuns(PutTask(s, row), row, now);
    } else {
      var advancing := IntegrationSubmittedRow(row, s.runs[fact.run].id, fact.head, s.nextId, canonical);
      DisposeSameRuns(PutTask(s, advancing).(nextId := s.nextId + 1), advancing, now);
    }
  }

  lemma CaptureFailureSameRuns(s: Ledger, fact: GitFact, now: Time)
    requires ProjectCaptureFailure(s, fact, now).Committed?
    ensures ProjectCaptureFailure(s, fact, now).ledger.runs == s.runs
  {
    hide Conclude, SameCaptureFence;
    var task := s.tasks[fact.intent.id];
    if SameCaptureFence(task, s.runs[fact.run], fact.intent) {
      var row := CaptureFailedRow(task, fact.fatal, now);
      var s1 := PutTask(s, row);
      var s2 := if fact.fatal then FailProject(s1, task.origin.project) else s1;
      if row.status == TaskFailed {
        ConcludeSameRuns(s2, row, now);
      }
    }
  }

  lemma SuccessSameRuns(s: Ledger, fact: GitFact, now: Time)
    requires FinalizeSuccess(s, fact, now).Committed?
    ensures FinalizeSuccess(s, fact, now).ledger.runs == s.runs
  {
    hide Conclude, Dispose, NotifyParent, SameAdvanceFence, IntegrationSourceFence;
    var task := s.tasks[fact.intent.id];
    var s1 := CacheCanonical(s, task.origin.project, fact.actual);
    if task.origin.kind == TaskIntegration {
      var source := CompletedRow(s1.tasks[task.origin.source.value.task], fact.actual);
      ConcludeSameRuns(PutTask(s1, source), source, now);
    }
    var s2 := CompleteSource(s1, task, fact.actual, now).ledger;
    var row := CompletedRow(task, fact.actual).(pending := None);
    DisposeSameRuns(PutTask(s2, row), row, now);
    if task.origin.kind != TaskIntegration {
      NotifySameRuns(Dispose(PutTask(s2, row), row, now).ledger, row, now);
    }
  }

  lemma AdvanceFailureSameRuns(s: Ledger, fact: GitFact, now: Time)
    requires ProjectAdvanceFailure(s, fact, now).Committed?
    ensures ProjectAdvanceFailure(s, fact, now).ledger.runs == s.runs
  {
    hide Conclude, SameAdvanceFence;
    var task := s.tasks[fact.intent.id];
    if SameAdvanceFence(task, fact.intent) {
      var row := task.(status := TaskFailed, pending := None, version := task.version + 1);
      ConcludeSameRuns(FailProject(PutTask(s, row), task.origin.project), row, now);
    }
  }

  lemma ProjectionsSameRuns(s: Ledger, step: ProjectionStep, now: Time)
    requires AttemptProjections(s, step, now).Committed?
    ensures AttemptProjections(s, step, now).ledger.runs == s.runs
  {
    hide FinalizeCapture, ProjectCaptureFailure, FinalizeSuccess, ProjectAdvanceFailure, SameAdvanceFence,
         IntegrationSourceFence;
    match step
    case StepFinalizeCapture(fact, canonical) => CaptureSameRuns(s, fact, canonical, now);
    case StepProjectCaptureFailure(fact) => CaptureFailureSameRuns(s, fact, now);
    case StepAccept(_, _, _, _, _, _) => hide FinalizeStale;
    case StepFinalizeSuccess(fact) => SuccessSameRuns(s, fact, now);
    case StepFinalizeStale(fact) => hide RequestAccept;
    case StepProjectAdvanceFailure(fact) => AdvanceFailureSameRuns(s, fact, now);
  }

  // ---- every step ----

  lemma RegistrySameRuns(s: Ledger, step: RegistryStep, now: Time)
    requires AttemptRegistry(s, step, now).Committed?
    ensures AttemptRegistry(s, step, now).ledger.runs == s.runs
  {
    hide AgentIsNeeded, ProjectIsNeeded, Observed, ValidAgentTransition, ValidProjectTransition;
    match step
    case StepAddAgent =>
    case StepSetAgentStatus(_, _) =>
    case StepArchiveAgent(_) =>
    case StepAddProject(_, _) =>
    case StepFinishProject(_, _, _) =>
    case StepRepairProject(_) =>
    case StepFinishVerification(_, _, _) =>
    case StepArchiveProject(_) =>
  }

  lemma GitSameRuns(s: Ledger, step: GitStep, now: Time)
    requires AttemptGit(s, step, now).Committed?
    ensures AttemptGit(s, step, now).ledger.runs == s.runs
  {
    hide CapturedAncestry, AdvanceEffect, CaptureIntent, AdvanceIntent, CanReadIntent;
    match step
    case StepPromoteRepository(_) =>
    case StepReadIntent(_) =>
    case StepWriteTaskRef(_) =>
    case StepReportCapture(_) =>
    case StepReportCaptureFailure(_, _) =>
    case StepAdvanceCanonical(_, _, _, _) =>
    case StepReportAdvanceFailure(_) =>
    case StepFastForward(_, _) =>
    case StepDropTaskRef(_) =>
  }

  predicate IsCleanup(step: Step) {
    step.Runs? && step.runStep.StepCleanup?
  }

  lemma StepSparesEndedRuns(s: Ledger, step: Step, now: Time)
    requires Inv(s) && !IsCleanup(step) && Attempt(s, step, now).Committed?
    ensures EndedRowsStay(s, Attempt(s, step, now).ledger)
  {
    hide Inv, EndedRowsStay, AttemptRegistry, AttemptMessages, AttemptTasks, AttemptGit, AttemptProjections;
    var s1 := Attempt(s, step, now).ledger;
    match step
    case Registry(inner) =>
      RegistrySameRuns(s, inner, now);
      SameRuns(s, s1);
    case Runs(StepTerminal(run, input)) =>
      TerminalEndsLiveOnly(s, run, input, now);
    case Runs(inner) =>
      hide AttemptRuns;
      LiveFactsOnly(s, inner, now);
    case Messages(inner) =>
      MessagesSameRuns(s, inner, now);
      SameRuns(s, s1);
    case Tasks(inner) => TasksSpareEndedRuns(s, inner, now);
    case Git(inner) =>
      GitSameRuns(s, inner, now);
      SameRuns(s, s1);
    case Projections(inner) =>
      ProjectionsSameRuns(s, inner, now);
      SameRuns(s, s1);
  }

  /** A cleanup report touches the recorded end of its own run alone, and only by blocking. */
  ghost predicate EndRewritten(s: Ledger, step: Step, id: RunId, s1: Ledger)
    requires id in s.runs && id in s1.runs
  {
    && IsCleanup(step) && step.runStep.run == id && step.runStep.next == CleanupBlocked
    && s1.runs[id].cleanup == CleanupBlocked
    && s1.runs[id].fact == s.runs[id].fact.(lastError := step.runStep.lastError)
  }

  lemma CleanupRewritesItsRun(s: Ledger, step: Step, id: RunId, now: Time)
    requires Inv(s) && id in s.runs && IsCleanup(step) && Attempt(s, step, now).Committed?
    ensures var s1 := Attempt(s, step, now).ledger;
            id in s1.runs && (s1.runs[id].fact == s.runs[id].fact || EndRewritten(s, step, id, s1))
            && (step.runStep.run != id ==> s1.runs[id] == s.runs[id])
  {
    hide InvExcept, RunFits, RuntimeFactFence, ValidCleanupTransition, AttemptRegistry, AttemptMessages, AttemptTasks,
         AttemptGit, AttemptProjections;
    RunAt(s, {}, step.runStep.run);
  }

  /** In every reachable state and for every request: what was recorded about the end of a run changes
    only when a blocked cleanup of this run replaces its last error; anything but a cleanup report
    leaves the whole row alone. */
  lemma EndIsRewrittenByBlockedCleanup(s: Ledger, event: Event, id: RunId)
    requires Reachable(s) && id in s.runs && !s.runs[id].Live()
    ensures var s1 := Next(s, event);
            && id in s1.runs
            && (s1.runs[id].fact == s.runs[id].fact || EndRewritten(s, event.step, id, s1))
            && ((IsCleanup(event.step) && event.step.runStep.run == id) || s1.runs[id] == s.runs[id])
  {
    hide Inv, Reachable, Attempt, Acknowledge, EndRewritten;
    ReachableHolds(s);
    if Bundled(s, event.acknowledging, event.step, event.at).Committed? {
      var s0 := s;
      if event.acknowledging.Some? {
        var a := event.acknowledging.value;
        AcknowledgeKeeps(s, a.project, a.agent, a.ids);
        AcknowledgeSameRuns(s, a.project, a.agent, a.ids);
        s0 := Acknowledge(s, a.project, a.agent, a.ids).ledger;
      }
      if IsCleanup(event.step) {
        CleanupRewritesItsRun(s0, event.step, id, event.at);
        RewriteReadsRuns(s, s0, event.step, id, Attempt(s0, event.step, event.at).ledger);
      } else {
        StepSparesEndedRuns(s0, event.step, event.at);
      }
    }
  }

  lemma RewriteReadsRuns(s: Ledger, s0: Ledger, step: Step, id: RunId, s1: Ledger)
    requires s0.runs == s.runs && id in s.runs && id in s1.runs
    ensures EndRewritten(s0, step, id, s1) <==> EndRewritten(s, step, id, s1)
  {
  }
}
