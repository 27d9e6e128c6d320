/** The service as it runs: one transaction per request, rolled back on any error. It refines the
  transition system, step for step.
 */
module Service {
  import opened Model
  import opened Tables
  import MessageSteps
  import opened RunSteps
  import opened System
  import opened Invariant
  import opened Evolution
  import opened SendProofs
  import opened Safety
  import opened Store
  import MessageOps
  import RunOps
  import TaskOps
  import GitOps
  import ProjectOps

  method ServeRegistry(tx: Transaction, step: RegistryStep, now: Time) returns (error: Option<Error>)
    modifies tx
    ensures Did(AttemptRegistry(old(tx.Rows()), step, now), tx.Rows(), error)
  {
    match step
    case StepAddAgent =>
      var id := tx.NewId();
      tx.agents := tx.agents[id := AgentActive];
      error := None;
    case StepSetAgentStatus(agent, status) => error := ProjectOps.SetAgentStatus(tx, agent, status);
    case StepArchiveAgent(agent) => error := ProjectOps.ArchiveAgent(tx, agent);
    case StepAddProject(initial, integrator) => error := ProjectOps.AddProject(tx, initial, integrator);
    case StepFinishProject(project, operation, verified) =>
      error := ProjectOps.FinishProjectAction(tx, project, operation, verified);
    case StepRepairProject(project) => error := ProjectOps.RepairProject(tx, project);
    case StepFinishVerification(project, seen, verified) =>
      error := ProjectOps.FinishActiveVerification(tx, project, seen, verified);
    case StepArchiveProject(project) => error := ProjectOps.ArchiveProject(tx, project);
  }

  /** Claims go through Scheduler.ClaimNext, which chooses the task itself. */
  method ServeRuns(tx: Transaction, step: RunStep, now: Time) returns (error: Option<Error>)
    requires Schema(tx.Rows()) && !step.StepClaim?
    modifies tx
    ensures Did(AttemptRuns(old(tx.Rows()), step, now), tx.Rows(), error)
  {
    hide Schema;
    match step
    case StepBeginLaunch(run, generation, nonce, cleanup) =>
      error := RunOps.BeginRunLaunch(tx, run, generation, nonce, cleanup);
    case StepContainerCreated(run, key) =>
      if key.container.None? {
        return Some(InvalidArgument);
      }
      error := RunOps.AdvanceRunPhase(tx, run, key, LaunchIntent, LaunchCreated);
    case StepStartIssued(run, key) => error := RunOps.AdvanceRunPhase(tx, run, key, LaunchCreated, LaunchStartIssued);
    case StepActivate(run, key) => error := RunOps.ObserveProcessAndActivateRun(tx, run, key);
    case StepSession(run, key, session) => error := RunOps.RecordRunSession(tx, run, key, session);
    case StepHeartbeat(run, key) => error := RunOps.RecordRunHeartbeat(tx, run, key);
    case StepCleanup(run, key, cleanup, next, lastError) =>
      error := RunOps.RecordRunCleanup(tx, run, key, cleanup, next, lastError);
    case StepRequestStop(run, reason, stop) => error := RunOps.RequestRunStop(tx, run, reason, stop);
    case StepOutcome(run, outcome, seenTask, seenRun, head) =>
      error := RunOps.ApplyOutcome(tx, run, outcome, seenTask, seenRun, head);
    case StepTerminal(run, input) => error := RunOps.RecordRuntimeRunTerminal(tx, run, input, now);
  }

  method ServeMessages(tx: Transaction, step: MessageStep, now: Time) returns (error: Option<Error>)
    requires Schema(tx.Rows())
    modifies tx
    ensures Did(AttemptMessages(old(tx.Rows()), step, now), tx.Rows(), error)
  {
    hide Schema;
    match step
    case StepSend(project, agent, explicit, wake) =>
      error := MessageOps.SendAgentMessage(tx, project, agent, explicit, wake, now);
    case StepDeliver(run, ids) => error := MessageOps.RecordMessagesDelivered(tx, run, ids, now);
    case StepAcknowledge(project, agent, ids) => error := MessageOps.AcknowledgeAgentMessages(tx, project, agent, ids);
    case StepRetryMessage(message) => error := MessageOps.RetryMessage(tx, message, now);
  }

  method ServeTasks(tx: Transaction, step: TaskStep, now: Time) returns (error: Option<Error>)
    requires Schema(tx.Rows())
    modifies tx
    ensures Did(AttemptTasks(old(tx.Rows()), step, now), tx.Rows(), error)
  {
    hide Schema;
    match step
    case StepCreateTask(creator, project, seen, assignee, priority, maxRetries, base, source, sourceVersion) =>
      error := TaskOps.CreateWorkTask(tx, creator, project, seen, assignee, priority, maxRetries, base, source,
                                      sourceVersion, now);
    case StepWake(task) => error := TaskOps.WakeTask(tx, task, now);
    case StepRetry(task) => error := TaskOps.RetryTask(tx, task, now);
    case StepRework(task) => error := TaskOps.ReworkTask(tx, task, now);
    case StepCancel(task, reason) => error := TaskOps.CancelTask(tx, task, reason, now);
    case StepComplete(task) => error := TaskOps.CompleteTask(tx, task, now);
    case StepClose(task) => error := TaskOps.CloseConversation(tx, task);
    case StepReleaseSourceRef(task) => error := TaskOps.ReleaseSourceReference(tx, task);
  }

  method ServeProjections(tx: Transaction, step: ProjectionStep, now: Time) returns (error: Option<Error>)
    requires tx.Valid()
    modifies tx
    ensures Did(AttemptProjections(old(tx.Rows()), step, now), tx.Rows(), error)
  {
    SchemaHolds(tx.Rows());
    hide Inv, Schema;
    match step
    case StepFinalizeCapture(fact, canonical) => error := GitOps.FinalizeCapture(tx, fact, canonical, now);
    case StepProjectCaptureFailure(fact) => error := GitOps.ProjectCaptureFailure(tx, fact, now);
    case StepAccept(task, integrator, seenTask, seenProject, head, canonical) =>
      error := GitOps.RequestAccept(tx, task, integrator, seenTask, seenProject, head, canonical);
    case StepFinalizeSuccess(fact) => error := GitOps.FinalizeSuccessfulAdvance(tx, fact, now);
    case StepFinalizeStale(fact) => error := GitOps.FinalizeStaleAdvance(tx, fact, now);
    case StepProjectAdvanceFailure(fact) => error := GitOps.ProjectAdvanceInvariantFailure(tx, fact, now);
  }

  /** The steps the service takes itself; the others are Git's, or the scheduler's. */
  predicate IsRequest(step: Step) {
    !step.Git? && (step.Runs? ==> !step.runStep.StepClaim?)
  }

  method Dispatch(tx: Transaction, step: Step, now: Time) returns (error: Option<Error>)
    requires tx.Valid() && IsRequest(step)
    modifies tx
    ensures Did(Attempt(old(tx.Rows()), step, now), tx.Rows(), error)
  {
    SchemaHolds(tx.Rows());
    hide Inv, Schema, AttemptRegistry, AttemptRuns, AttemptMessages, AttemptTasks, AttemptProjections;
    match step
    case Registry(inner) => error := ServeRegistry(tx, inner, now);
    case Runs(inner) => error := ServeRuns(tx, inner, now);
    case Messages(inner) => error := ServeMessages(tx, inner, now);
    case Tasks(inner) => error := ServeTasks(tx, inner, now);
    case Projections(inner) => error := ServeProjections(tx, inner, now);
  }

  /** One request: its acknowledgements and its step in one transaction. The result is exactly the
    transition system's, the class invariant holds again, and an error leaves no trace. */
  method Serve(tx: Transaction, event: Event) returns (error: Option<Error>)
    requires tx.Valid() && IsRequest(event.step)
    modifies tx
    ensures tx.Valid() && tx.Rows() == Next(old(tx.Rows()), event)
    ensures Did(Bundled(old(tx.Rows()), event.acknowledging, event.step, event.at), tx.Rows(), error)
    ensures error.Some? ==> tx.Rows() == old(tx.Rows())
  {
    SchemaHolds(tx.Rows());
    hide Inv, Evolves, Schema, Attempt;
    var before := tx.Rows();
    NextKeeps(before, event);
    error := None;
    if event.acknowledging.Some? {
      var a := event.acknowledging.value;
      error := MessageOps.AcknowledgeAgentMessages(tx, a.project, a.agent, a.ids);
      if error.None? {
        AcknowledgeKeeps(before, a.project, a.agent, a.ids);
      }
    }
    hide MessageSteps.Acknowledge;
    if error.None? {
      error := Dispatch(tx, event.step, event.at);
    }
    if error.Some? {
      tx.Rollback(before);
    }
  }
}
