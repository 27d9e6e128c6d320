/** The coordination service as one transition system. Every step is one transaction, one
  durable Git effect, or one observation; between two steps the daemon may crash.
 */
module System {
  import opened Commits
  import opened Model
  import opened Tables
  import opened MessageSteps
  import opened RunSteps
  import opened TaskSteps
  import opened GitSteps
  import opened ProjectSteps

  /** Agents and projects. */
  datatype RegistryStep =
    | StepAddAgent
    | StepSetAgentStatus(agent: AgentId, status: AgentStatus)
    | StepArchiveAgent(agent: AgentId)
    | StepAddProject(initial: Commit, integrator: Option<AgentId>)
    | StepFinishProject(project: ProjectId, operation: ProjectIntent, verified: Option<Commit>)
    | StepRepairProject(project: ProjectId)
    | StepFinishVerification(project: ProjectId, seen: Project, verified: Option<Commit>)
    | StepArchiveProject(project: ProjectId)

  /** Runs. */
  datatype RunStep =
    | StepClaim(task: TaskId)
    | StepBeginLaunch(run: RunId, generation: nat, nonce: nat, cleanupOperation: OperationId)
    | StepContainerCreated(run: RunId, key: RuntimeKey)
    | StepStartIssued(run: RunId, key: RuntimeKey)
    | StepActivate(run: RunId, key: RuntimeKey)
    | StepSession(run: RunId, key: RuntimeKey, session: string)
    | StepHeartbeat(run: RunId, key: RuntimeKey)
    | StepCleanup(run: RunId, key: RuntimeKey, cleanupOperation: OperationId, next: CleanupState, lastError: string)
    | StepRequestStop(run: RunId, reason: string, stopOperation: Option<OperationId>)
    | StepOutcome(run: RunId, outcome: TaskOutcome, seenTask: Task, seenRun: Run, head: Commit)
    | StepTerminal(run: RunId, input: TerminalInput)

  /** Messages. */
  datatype MessageStep =
    | StepSend(project: ProjectId, agent: AgentId, explicit: Option<TaskId>, wake: bool)
    | StepDeliver(run: RunId, ids: seq<MessageId>)
    | StepAcknowledge(project: ProjectId, agent: AgentId, ids: seq<MessageId>)
    | StepRetryMessage(message: MessageId)

  /** Tasks. */
  datatype TaskStep =
    | StepCreateTask(creator: Creator, project: ProjectId, seenVersion: nat, assignee: Option<AgentId>, priority: int,
        maxRetries: nat, base: Commit, source: Option<TaskId>, sourceVersion: nat)
    | StepWake(task: TaskId)
    | StepRetry(task: TaskId)
    | StepRework(task: TaskId)
    | StepCancel(task: TaskId, reason: string)
    | StepComplete(task: TaskId)
    | StepClose(task: TaskId)
    | StepReleaseSourceRef(task: TaskId)

  /** Git effects, and what was observed of them. */
  datatype GitStep =
    | StepPromoteRepository(project: ProjectId)
    | StepReadIntent(task: TaskId)
    | StepWriteTaskRef(intent: Task)
    | StepReportCapture(intent: Task)
    | StepReportCaptureFailure(intent: Task, fatal: bool)
    | StepAdvanceCanonical(intent: Task, after: Commit, advance: AdvanceOutcome, actual: Commit)
    | StepReportAdvanceFailure(intent: Task)
    | StepFastForward(project: ProjectId, after: Commit)
    | StepDropTaskRef(ref: TaskRef)

  /** The transactions that start and finish a Git action. */
  datatype ProjectionStep =
    | StepFinalizeCapture(fact: GitFact, canonical: Commit)
    | StepProjectCaptureFailure(fact: GitFact)
    | StepAccept(task: TaskId, integrator: Option<AgentId>, seenTask: Task, seenProject: Project, head: Commit, canonical: Commit)
    | StepFinalizeSuccess(fact: GitFact)
    | StepFinalizeStale(fact: GitFact)
    | StepProjectAdvanceFailure(fact: GitFact)

  datatype Step =
    | Registry(registryStep: RegistryStep)
    | Runs(runStep: RunStep)
    | Messages(messageStep: MessageStep)
    | Tasks(taskStep: TaskStep)
    | Git(gitStep: GitStep)
    | Projections(projectionStep: ProjectionStep)

  ghost function AttemptRegistry(s: Ledger, step: RegistryStep, now: Time): Tx {
    match step
    case StepAddAgent => AddAgent(s)
    case StepSetAgentStatus(agent, status) => SetAgentStatus(s, agent, status)
    case StepArchiveAgent(agent) => ArchiveAgent(s, agent)
    case StepAddProject(initial, integrator) => AddProject(s, initial, integrator)
    case StepFinishProject(project, operation, verified) => FinishProject(s, project, operation, verified)
    case StepRepairProject(project) => RepairProject(s, project)
    case StepFinishVerification(project, seen, verified) => FinishVerification(s, project, seen, verified)
    case StepArchiveProject(project) => ArchiveProject(s, project)
  }

  ghost function AttemptRuns(s: Ledger, step: RunStep, now: Time): Tx {
    match step
    case StepClaim(task) => Claim(s, task, now)
    case StepBeginLaunch(run, generation, nonce, cleanup) => BeginLaunch(s, run, generation, nonce, cleanup)
    case StepContainerCreated(run, key) => RecordContainerCreated(s, run, key)
    case StepStartIssued(run, key) => RecordStartIssued(s, run, key)
    case StepActivate(run, key) => Activate(s, run, key)
    case StepSession(run, key, session) => RecordSession(s, run, key, session)
    case StepHeartbeat(run, key) => RecordHeartbeat(s, run, key)
    case StepCleanup(run, key, cleanup, next, lastError) => RecordCleanup(s, run, key, cleanup, next, lastError)
    case StepRequestStop(run, reason, stop) => RequestStop(s, run, reason, stop)
    case StepOutcome(run, outcome, seenTask, seenRun, head) => ApplyOutcome(s, run, outcome, seenTask, seenRun, head)
    case StepTerminal(run, input) => RecordTerminal(s, run, input, now)
  }

  ghost function AttemptMessages(s: Ledger, step: MessageStep, now: Time): Tx {
    match step
    case StepSend(project, agent, explicit, wake) => SendToAgent(s, project, agent, explicit, wake, now)
    case StepDeliver(run, ids) => DeliverMessages(s, run, ids, now)
    case StepAcknowledge(project, agent, ids) => Acknowledge(s, project, agent, ids)
    case StepRetryMessage(message) => RetryMessage(s, message, now)
  }

  ghost function AttemptTasks(s: Ledger, step: TaskStep, now: Time): Tx {
    match step
    case StepCreateTask(creator, project, seen, assignee, priority, maxRetries, base, source, sourceVersion) =>
      CreateTask(s, creator, project, seen, assignee, priority, maxRetries, base, source, sourceVersion, now)
    case StepWake(task) => WakeTask(s, task, now)
    case StepRetry(task) => RetryTask(s, task, now)
    case StepRework(task) => ReworkTask(s, task, now)
    case StepCancel(task, reason) => CancelTask(s, task, reason, now)
    case StepComplete(task) => CompleteTask(s, task, now)
    case StepClose(task) => CloseConversation(s, task)
    case StepReleaseSourceRef(task) => ReleaseSourceReference(s, task)
  }

  ghost function AttemptGit(s: Ledger, step: GitStep, now: Time): Tx {
    match step
    case StepPromoteRepository(project) => PromoteRepository(s, project)
    case StepReadIntent(task) => ReadIntent(s, task)
    case StepWriteTaskRef(intent) => WriteTaskRef(s, intent)
    case StepReportCapture(intent) => ReportCapture(s, intent)
    case StepReportCaptureFailure(intent, fatal) => ReportCaptureFailure(s, intent, fatal)
    case StepAdvanceCanonical(intent, after, advance, actual) => AdvanceCanonical(s, intent, after, advance, actual)
    case StepReportAdvanceFailure(intent) => ReportAdvanceFailure(s, intent)
    case StepFastForward(project, after) => FastForward(s, project, after)
    case StepDropTaskRef(ref) => DropTaskRef(s, ref)
  }

  ghost function AttemptProjections(s: Ledger, step: ProjectionStep, now: Time): Tx {
    match step
    case StepFinalizeCapture(fact, canonical) => FinalizeCapture(s, fact, canonical, now)
    case StepProjectCaptureFailure(fact) => ProjectCaptureFailure(s, fact, now)
    case StepAccept(task, integrator, seenTask, seenProject, head, canonical) =>
      RequestAccept(s, task, integrator, seenTask, seenProject, head, canonical)
    case StepFinalizeSuccess(fact) => FinalizeSuccess(s, fact, now)
    case StepFinalizeStale(fact) => FinalizeStale(s, fact, now)
    case StepProjectAdvanceFailure(fact) => ProjectAdvanceFailure(s, fact, now)
  }

  ghost function Attempt(s: Ledger, step: Step, now: Time): Tx {
    match step
    case Registry(inner) => AttemptRegistry(s, inner, now)
    case Runs(inner) => AttemptRuns(s, inner, now)
    case Messages(inner) => AttemptMessages(s, inner, now)
    case Tasks(inner) => AttemptTasks(s, inner, now)
    case Git(inner) => AttemptGit(s, inner, now)
    case Projections(inner) => AttemptProjections(s, inner, now)
  }

  /** Messages a request acknowledges on the side, before its own effect. */
  datatype Acknowledgement = Acknowledgement(project: ProjectId, agent: AgentId, ids: seq<MessageId>)

  ghost function Bundled(s: Ledger, with: Option<Acknowledgement>, step: Step, now: Time): Tx {
    var s1 :- if with.None? then Committed(s) else Acknowledge(s, with.value.project, with.value.agent, with.value.ids);
    Attempt(s1, step, now)
  }

  /** One timed request. No order of the instants is assumed. */
  datatype Event = Event(acknowledging: Option<Acknowledgement>, step: Step, at: Time)

  /** An aborted request changes nothing, its acknowledgements included. */
  ghost function Next(s: Ledger, event: Event): Ledger {
    Bundled(s, event.acknowledging, event.step, event.at).From(s)
  }

  function Empty(maxRuns: nat): Ledger {
    Ledger(map[], map[], map[], map[], map[], map[], map[], {}, {}, 0, maxRuns)
  }

  /** The state after any number of requests. */
  ghost function RunAll(s: Ledger, events: seq<Event>): Ledger
    decreases |events|
  {
    if events == [] then s else RunAll(Next(s, events[0]), events[1..])
  }
}
