/** Rows, status predicates and transition tables (internal/core/model.go, internal/core/fsm.go).

  Identifiers and instants are numbers. Fields that only carry text are omitted.
  Fields the source sets and clears together are one optional value here.
 */
module Model {
  import opened Commits

  datatype Option<+T> = None | Some(value: T)

  type ProjectId = nat
  type AgentId = nat
  type TaskId = nat
  type RunId = nat
  type MessageId = nat
  type OperationId = nat
  type Time = nat

  datatype Error =
    | NotFound
    | InvalidArgument
    | InvalidState
    | ActionInProgress
    | VersionConflict
    | StaleRun
    | RunIsStarting
    | ScopeDenied
    | GitInvariantViolation
    | IntegrationAgentRequired
    | RuntimeInvariantViolation

  datatype ProjectStatus = ProjectCreating | ProjectActive | ProjectError | ProjectArchived
  datatype AgentStatus = AgentActive | AgentPaused | AgentArchived
  datatype TaskKind = TaskConversation | TaskWork | TaskIntegration
  datatype TaskStatus =
    | TaskQueued | TaskRunning | TaskFinishing | TaskWaiting
    | TaskSubmitted | TaskCompleted | TaskFailed | TaskCancelled
  datatype RunState =
    | RunStarting | RunActive
    | RunExited | RunFailed | RunInterrupted | RunCancelled | RunTimedOut
  datatype MessageState = MessagePending | MessageDelivered | MessageAcknowledged | MessageCancelled
  datatype TaskOutcome = OutcomeWait | OutcomeSubmit | OutcomeFail
  datatype LaunchPhase = LaunchIntent | LaunchCreated | LaunchStartIssued | LaunchProcessObserved
  datatype CleanupState = CleanupNotNeeded | CleanupPending | CleanupRemoved | CleanupBlocked
  datatype AdvanceOutcome = AdvanceUpdated | AdvanceIncluded | AdvanceStale
  datatype GitAction = Capture | Advance

  /** The action a project that is being created or repaired waits for. */
  datatype ProjectIntent = Initialize(operation: OperationId) | Verify(operation: OperationId)

  datatype Project = Project(
    status: ProjectStatus,
    initial: Commit,
    cachedCanonical: Option<Commit>,
    integrator: Option<AgentId>,
    pending: Option<ProjectIntent>,
    version: nat)

  /** The name of the ref that freezes one run's result. */
  datatype TaskRef = TaskRef(task: TaskId, run: RunId)

  /** head_sha, head_run_id and task_ref. */
  datatype Result = Result(head: Commit, run: RunId, ref: TaskRef)

  /** source_task_id, source_run_id, source_task_ref and source_head_sha. */
  datatype Source = Source(task: TaskId, result: Result)

  /** The columns no operation rewrites after the row was inserted. */
  datatype Origin = Origin(
    project: ProjectId,
    kind: TaskKind,
    parent: Option<TaskId>,
    assignee: Option<AgentId>,
    priority: int,
    createdAt: Time,
    maxRetries: nat,
    base: Option<Commit>,
    source: Option<Source>,
    acceptVersion: nat)

  datatype Pending = Pending(
    action: GitAction,
    id: OperationId,
    version: nat,
    run: RunId,
    expected: Commit,
    target: Option<Commit>)

  datatype Task = Task(
    id: TaskId,
    origin: Origin,
    status: TaskStatus,
    currentRun: Option<RunId>,
    generation: nat,
    nextRunAt: Time,
    retryCount: nat,
    result: Option<Result>,
    accepted: Option<AgentId>,
    finalCanonical: Option<Commit>,
    link: Option<TaskId>,
    pending: Option<Pending>,
    sourceReleased: bool,
    version: nat)
  {
    predicate Open() {
      status != TaskCompleted && status != TaskCancelled
    }

    /** taskAcceptsDelivery */
    predicate AcceptsDelivery() {
      status == TaskQueued || status == TaskRunning || status == TaskFinishing || status == TaskWaiting
    }

    /** taskActionAvailable */
    predicate ActionAvailable() {
      status != TaskFinishing && pending.None? && link.None?
    }
  }

  datatype RunOrigin = RunOrigin(
    project: ProjectId,
    task: TaskId,
    agent: AgentId,
    generation: nat,
    launchOperation: OperationId)

  datatype Stop = Stop(reason: string, operation: OperationId)

  /** exit_code, terminal_reason, last_error and runtime_error_code. */
  datatype TerminalFact = TerminalFact(exitCode: Option<int>, reason: string, lastError: string, errorCode: string)

  datatype Run = Run(
    id: RunId,
    origin: RunOrigin,
    state: RunState,
    phase: LaunchPhase,
    nonce: Option<nat>,
    container: Option<nat>,
    tokenRevoked: bool,
    outcome: Option<TaskOutcome>,
    expectedHead: Option<Commit>,
    stop: Option<Stop>,
    fact: TerminalFact,
    session: string,
    cleanup: CleanupState,
    cleanupOperation: Option<OperationId>,
    version: nat)
  {
    predicate Live() {
      state == RunStarting || state == RunActive
    }

    /** Counted by the agent_id occupancy query: live, or with owed cleanup. */
    predicate OccupiesAgent() {
      Live() || cleanup == CleanupPending || cleanup == CleanupBlocked
    }
  }

  datatype Recipient = ToBoss | ToAgent(agent: AgentId)

  datatype Message = Message(
    id: MessageId,
    project: ProjectId,
    task: TaskId,
    recipient: Recipient,
    wake: bool,
    state: MessageState,
    deliveredRun: Option<RunId>,
    count: nat,
    max: nat,
    nextAt: Option<Time>,
    version: nat)
  {
    /** An agent message that still waits for its recipient. */
    predicate Unresolved() {
      recipient.ToAgent? && (state == MessagePending || state == MessageDelivered)
    }

    predicate Exhausted() {
      max > 0 && count >= max
    }

    /** A message that obliges its task to get another run. */
    predicate OwesWake() {
      recipient.ToAgent? && wake
      && (state == MessageDelivered || (state == MessagePending && !Exhausted()))
    }

    /** The row test of the PendingWakeAt query. */
    predicate PendingWake() {
      recipient.ToAgent? && wake && state == MessagePending && nextAt.Some? && !Exhausted()
    }
  }

  predicate ValidRunTransition(from: RunState, to: RunState) {
    match from
    case RunStarting => to != RunStarting
    case RunActive => to == RunExited || to == RunInterrupted || to == RunCancelled || to == RunTimedOut
    case _ => false
  }

  predicate ValidTaskTransition(kind: TaskKind, from: TaskStatus, to: TaskStatus) {
    if kind == TaskConversation && (to == TaskSubmitted || from == TaskSubmitted) then false
    else if from == TaskWaiting && to == TaskCompleted then kind == TaskConversation
    else
      match from
      case TaskQueued => to == TaskRunning || to == TaskFailed || to == TaskCancelled
      case TaskRunning => to == TaskFinishing || to == TaskQueued || to == TaskFailed || to == TaskCancelled
      case TaskFinishing => to == TaskWaiting || to == TaskQueued || to == TaskSubmitted || to == TaskFailed
      case TaskWaiting => to == TaskQueued || to == TaskFailed || to == TaskCancelled
      case TaskSubmitted => to == TaskQueued || to == TaskCompleted || to == TaskCancelled
      case TaskFailed => to == TaskQueued || to == TaskCancelled
      case _ => false
  }

  predicate ValidProjectTransition(from: ProjectStatus, to: ProjectStatus) {
    match from
    case ProjectCreating => to == ProjectActive || to == ProjectError
    case ProjectError => to == ProjectCreating || to == ProjectArchived
    case ProjectActive => to == ProjectError || to == ProjectArchived
    case ProjectArchived => false
  }

  predicate ValidAgentTransition(from: AgentStatus, to: AgentStatus) {
    match from
    case AgentActive => to == AgentPaused || to == AgentArchived
    case AgentPaused => to == AgentActive || to == AgentArchived
    case AgentArchived => false
  }

  function LaunchPhaseOrder(phase: LaunchPhase): nat {
    match phase
    case LaunchIntent => 0
    case LaunchCreated => 1
    case LaunchStartIssued => 2
    case LaunchProcessObserved => 3
  }

  predicate ValidCleanupTransition(current: CleanupState, next: CleanupState, terminal: bool) {
    || (current == CleanupNotNeeded && next == CleanupPending)
    || (current == CleanupPending && next == CleanupBlocked)
    || (current == CleanupBlocked && next == CleanupPending)
    || (current == CleanupPending && next == CleanupRemoved && terminal)
  }

  datatype RetryDecision = RetryDecision(status: TaskStatus, retryCount: nat)

  /** runtimeRetryDecision: the only place a retry is granted. */
  function DecideRetry(retryCount: nat, maxRetries: nat): RetryDecision {
    if retryCount < maxRetries then RetryDecision(TaskQueued, retryCount + 1)
    else RetryDecision(TaskFailed, retryCount)
  }

  /** runtimeRetryAt: one second doubled per retry, capped at 32 seconds. */
  function RetryAt(now: Time, retryCount: nat): (at: Time)
    ensures now < at <= now + 32
  {
    now + (match retryCount
           case 0 => 1
           case 1 => 1
           case 2 => 2
           case 3 => 4
           case 4 => 8
           case 5 => 16
           case _ => 32)
  }
}
