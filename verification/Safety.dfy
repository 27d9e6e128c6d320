/** Every reachable state satisfies the invariant, and what that means for the service. */
module Safety {
  import opened Commits
  import opened Model
  import opened Tables
  import opened MessageSteps
  import opened RunSteps
  import opened TaskSteps
  import opened GitSteps
  import opened ProjectSteps
  import opened System
  import opened Invariant
  import opened RowChanges
  import opened Evolution
  import opened MessageProofs
  import opened SendProofs
  import opened RunProofs
  import opened TaskProofs
  import opened GitProofs
  import opened AdvanceProofs
  import opened ProjectProofs

  // ---- one step ----

  lemma RegistryStepKeeps(s: Ledger, step: RegistryStep, now: Time)
    requires Inv(s) && AttemptRegistry(s, step, now).Committed?
    ensures Kept(s, AttemptRegistry(s, step, now).ledger)
  {
    hide Kept, Inv, AddAgent, SetAgentStatus, ArchiveAgent, AddProject, FinishProject,
         RepairProject, FinishVerification, ArchiveProject;
    match step
    case StepAddAgent => AddAgentKeeps(s);
    case StepSetAgentStatus(agent, status) => SetAgentStatusKeeps(s, agent, status);
    case StepArchiveAgent(agent) => ArchiveAgentKeeps(s, agent);
    case StepAddProject(initial, integrator) => AddProjectKeeps(s, initial, integrator);
    case StepFinishProject(project, operation, verified) => FinishProjectKeeps(s, project, operation, verified);
    case StepRepairProject(project) => RepairProjectKeeps(s, project);
    case StepFinishVerification(project, seen, verified) => FinishVerificationKeeps(s, project, seen, verified);
    case StepArchiveProject(project) => ArchiveProjectKeeps(s, project);
  }

  lemma RunStepKeeps(s: Ledger, step: RunStep, now: Time)
    requires Inv(s) && AttemptRuns(s, step, now).Committed?
    ensures Kept(s, AttemptRuns(s, step, now).ledger)
  {
    hide Kept, Inv, Claim, BeginLaunch, RecordContainerCreated, RecordStartIssued, Activate, RecordSession,
         RecordHeartbeat, RecordCleanup, RequestStop, ApplyOutcome, RecordTerminal;
    match step
    case StepClaim(task) => ClaimKeeps(s, task, now);
    case StepBeginLaunch(run, generation, nonce, cleanup) => BeginLaunchKeeps(s, run, generation, nonce, cleanup);
    case StepContainerCreated(run, key) => ContainerCreatedKeeps(s, run, key);
    case StepStartIssued(run, key) => StartIssuedKeeps(s, run, key);
    case StepActivate(run, key) => ActivateKeeps(s, run, key);
    case StepSession(run, key, session) => SessionKeeps(s, run, key, session);
    case StepHeartbeat(run, key) => HeartbeatKeeps(s, run, key);
    case StepCleanup(run, key, cleanup, next, lastError) => CleanupKeeps(s, run, key, cleanup, next, lastError);
    case StepRequestStop(run, reason, stop) => RequestStopKeeps(s, run, reason, stop);
    case StepOutcome(run, outcome, seenTask, seenRun, head) => OutcomeKeeps(s, run, outcome, seenTask, seenRun, head);
    case StepTerminal(run, input) => TerminalKeeps(s, run, input, now);
  }

  lemma MessageStepKeeps(s: Ledger, step: MessageStep, now: Time)
    requires Inv(s) && AttemptMessages(s, step, now).Committed?
    ensures Kept(s, AttemptMessages(s, step, now).ledger)
  {
    hide Kept, Inv, SendToAgent, DeliverMessages, Acknowledge, RetryMessage;
    match step
    case StepSend(project, agent, explicit, wake) => SendKeeps(s, project, agent, explicit, wake, now);
    case StepDeliver(run, ids) => DeliverKeeps(s, run, ids, now);
    case StepAcknowledge(project, agent, ids) => AcknowledgeKeeps(s, project, agent, ids);
    case StepRetryMessage(message) => RetryMessageKeeps(s, message, now);
  }

  lemma TaskStepKeeps(s: Ledger, step: TaskStep, now: Time)
    requires Inv(s) && AttemptTasks(s, step, now).Committed?
    ensures Kept(s, AttemptTasks(s, step, now).ledger)
  {
    hide Kept, Inv, CreateTask, WakeTask, RetryTask, ReworkTask, CancelTask, CompleteTask, CloseConversation,
         ReleaseSourceReference;
    match step
    case StepCreateTask(creator, project, seen, assignee, priority, maxRetries, base, source, sourceVersion) =>
      CreateTaskKeeps(s, creator, project, seen, assignee, priority, maxRetries, base, source, sourceVersion, now);
    case StepWake(task) => WakeTaskKeeps(s, task, now);
    case StepRetry(task) => RetryTaskKeeps(s, task, now);
    case StepRework(task) => ReworkTaskKeeps(s, task, now);
    case StepCancel(task, reason) => CancelTaskKeeps(s, task, reason, now);
    case StepComplete(task) => CompleteTaskKeeps(s, task, now);
    case StepClose(task) => CloseConversationKeeps(s, task);
    case StepReleaseSourceRef(task) => ReleaseSourceReferenceKeeps(s, task);
  }

  lemma GitStepKeeps(s: Ledger, step: GitStep, now: Time)
    requires Inv(s) && AttemptGit(s, step, now).Committed?
    ensures Kept(s, AttemptGit(s, step, now).ledger)
  {
    hide Kept, Inv, PromoteRepository, ReadIntent, WriteTaskRef, ReportCapture, ReportCaptureFailure, AdvanceCanonical,
         ReportAdvanceFailure, FastForward, DropTaskRef;
    match step
    case StepPromoteRepository(project) => PromoteKeeps(s, project);
    case StepReadIntent(task) => ReadIntentKeeps(s, task);
    case StepWriteTaskRef(intent) => WriteTaskRefKeeps(s, intent);
    case StepReportCapture(intent) => ReportCaptureKeeps(s, intent);
    case StepReportCaptureFailure(intent, fatal) => ReportCaptureFailureKeeps(s, intent, fatal);
    case StepAdvanceCanonical(intent, after, advance, actual) => AdvanceCanonicalKeeps(s, intent, after, advance, actual);
    case StepReportAdvanceFailure(intent) => ReportAdvanceFailureKeeps(s, intent);
    case StepFastForward(project, after) => FastForwardKeeps(s, project, after);
    case StepDropTaskRef(ref) => DropTaskRefKeeps(s, ref);
  }

  lemma ProjectionStepKeeps(s: Ledger, step: ProjectionStep, now: Time)
    requires Inv(s) && AttemptProjections(s, step, now).Committed?
    ensures Kept(s, AttemptProjections(s, step, now).ledger)
  {
    hide Kept, Inv, FinalizeCapture, ProjectCaptureFailure, RequestAccept, FinalizeSuccess, FinalizeStale,
         ProjectAdvanceFailure;
    match step
    case StepFinalizeCapture(fact, canonical) => FinalizeCaptureKeeps(s, fact, canonical, now);
    case StepProjectCaptureFailure(fact) => ProjectCaptureFailureKeeps(s, fact, now);
    case StepAccept(task, integrator, seenTask, seenProject, head, canonical) =>
      AcceptKeeps(s, task, integrator, seenTask, seenProject, head, canonical);
    case StepFinalizeSuccess(fact) => FinalizeSuccessKeeps(s, fact, now);
    case StepFinalizeStale(fact) => FinalizeStaleKeeps(s, fact, now);
    case StepProjectAdvanceFailure(fact) => ProjectAdvanceFailureKeeps(s, fact, now);
  }

  /** A committed step keeps the invariant, and every row only evolves. */
  lemma StepKeeps(s: Ledger, step: Step, now: Time)
    requires Inv(s) && Attempt(s, step, now).Committed?
    ensures Kept(s, Attempt(s, step, now).ledger)
  {
    hide Inv, Evolves, AttemptRegistry, AttemptRuns, AttemptMessages, AttemptTasks, AttemptGit, AttemptProjections;
    match step
    case Registry(inner) => RegistryStepKeeps(s, inner, now);
    case Runs(inner) => RunStepKeeps(s, inner, now);
    case Messages(inner) => MessageStepKeeps(s, inner, now);
    case Tasks(inner) => TaskStepKeeps(s, inner, now);
    case Git(inner) => GitStepKeeps(s, inner, now);
    case Projections(inner) => ProjectionStepKeeps(s, inner, now);
  }

  lemma NextKeeps(s: Ledger, event: Event)
    requires Inv(s)
    ensures Kept(s, Next(s, event))
  {
    hide Inv, Evolves, Attempt, Acknowledge;
    EvolvesReflexive(s);
    if Bundled(s, event.acknowledging, event.step, event.at).Committed? {
      if event.acknowledging.None? {
        StepKeeps(s, event.step, event.at);
      } else {
        var a := event.acknowledging.value;
        AcknowledgeKeeps(s, a.project, a.agent, a.ids);
        var s1 := Acknowledge(s, a.project, a.agent, a.ids).ledger;
        StepKeeps(s1, event.step, event.at);
        KeptTransitive(s, s1, Attempt(s1, event.step, event.at).ledger);
      }
    }
  }

  // ---- all runs ----

  lemma EmptyHolds(maxRuns: nat)
    ensures Inv(Empty(maxRuns))
  {
    assert LiveRuns(Empty(maxRuns)) == {};
  }

  /** Whatever happens after a good state, in any order and with any crashes, the state stays good
    and every row only evolves. */
  lemma {:induction false} RunsKeep(s: Ledger, events: seq<Event>)
    requires Inv(s)
    ensures Kept(s, RunAll(s, events))
    decreases |events|
  {
    hide Inv, Evolves, Next;
    if events == [] {
      EvolvesReflexive(s);
    } else {
      var s1 := Next(s, events[0]);
      NextKeeps(s, events[0]);
      RunsKeep(s1, events[1..]);
      KeptTransitive(s, s1, RunAll(s1, events[1..]));
    }
  }

  /** A state some history of the service leads to. */
  ghost predicate Reachable(s: Ledger) {
    exists maxRuns: nat, events: seq<Event> :: s == RunAll(Empty(maxRuns), events)
  }

  lemma ReachableHolds(s: Ledger)
    requires Reachable(s)
    ensures Inv(s)
  {
    hide Inv, Evolves, RunAll, Empty;
    var maxRuns: nat, events: seq<Event> :| s == RunAll(Empty(maxRuns), events);
    EmptyHolds(maxRuns);
    RunsKeep(Empty(maxRuns), events);
  }
}
