/** The life of a run: claim, launch, activation, outcome, stop, terminal fact, cleanup
  (run.go, runtime_lifecycle.go, outcome.go, run_actions.go and terminal.go in internal/core).
 */
module RunSteps {
  import opened Commits
  import opened Model
  import opened Tables
  import opened MessageSteps

  // ---- claim ----

  function Occupancy(s: Ledger, agent: AgentId): nat {
    |set r | r in s.runs && s.runs[r].origin.agent == agent && s.runs[r].OccupiesAgent()|
  }

  /** The checks ClaimNext makes for one candidate. */
  predicate Claimable(s: Ledger, id: TaskId, now: Time) {
    && id in s.tasks
    && var task := s.tasks[id];
    && task.nextRunAt <= now
    && ProjectIsActive(s, task.origin.project)
    && task.status == TaskQueued && task.currentRun.None?
    && task.origin.assignee.Some?
    && task.origin.assignee.value in s.agents
    && s.agents[task.origin.assignee.value] == AgentActive
    && Occupancy(s, task.origin.assignee.value) == 0
    && |LiveRuns(s)| < s.maxRuns
  }

  function NewRun(s: Ledger, task: Task): Run
    requires task.origin.assignee.Some?
  {
    Run(s.nextId, RunOrigin(task.origin.project, task.id, task.origin.assignee.value, task.generation + 1, s.nextId + 1),
        RunStarting, LaunchIntent, None, None, false, None, None, None,
        TerminalFact(None, "", "", ""), "", CleanupNotNeeded, None, 1)
  }

  /** The transaction body of ClaimNext for the candidate it selects. */
  function Claim(s: Ledger, id: TaskId, now: Time): Tx {
    if !Claimable(s, id, now) then Aborted(InvalidState)
    else
      var task := s.tasks[id];
      var run := NewRun(s, task);
      Committed(PutTask(PutRun(s, run), task.(generation := task.generation + 1, currentRun := Some(run.id),
                                              version := task.version + 1))
                .(nextId := s.nextId + 2))
  }

  // ---- launch ----

  /** The fence that every daemon fact about a launched run repeats. */
  datatype RuntimeKey = RuntimeKey(generation: nat, nonce: nat, launchOperation: OperationId, container: Option<nat>)

  /** BeginRunLaunch: the identity facts of the launch intent. */
  function BeginLaunch(
    s: Ledger, id: RunId, generation: nat, nonce: nat, cleanupOperation: OperationId
  ): Tx {
    if id !in s.runs then Aborted(NotFound)
    else
      var run := s.runs[id];
      if run.origin.task !in s.tasks then Aborted(NotFound)
      else
        var task := s.tasks[run.origin.task];
        if run.state != RunStarting || run.phase != LaunchIntent || run.container.Some?
           || task.status != TaskQueued || task.currentRun != Some(run.id)
           || task.generation != run.origin.generation || run.origin.generation != generation
        then Aborted(StaleRun)
        else if run.nonce.Some? then
          if run.nonce == Some(nonce) && run.cleanupOperation == Some(cleanupOperation) then Committed(s)
          else Aborted(ActionInProgress)
        else
          Committed(PutRun(s, run.(nonce := Some(nonce), cleanupOperation := Some(cleanupOperation),
                                   cleanup := CleanupPending, version := run.version + 1)))
  }

  /** runtimeFactFence */
  predicate RuntimeFactFence(run: Run, key: RuntimeKey) {
    && run.origin.generation == key.generation
    && run.nonce == Some(key.nonce)
    && run.origin.launchOperation == key.launchOperation
    && (run.container.Some? ==> run.container == key.container)
    && (run.container.None? && key.container.Some? ==> run.state == RunStarting && run.phase == LaunchIntent)
  }

  /** RecordContainerCreated, through advanceRunPhase. */
  function RecordContainerCreated(s: Ledger, id: RunId, key: RuntimeKey): Tx {
    if key.container.None? then Aborted(InvalidArgument)
    else if id !in s.runs then Aborted(NotFound)
    else
      var run := s.runs[id];
      if !RuntimeFactFence(run, key) then Aborted(StaleRun)
      else if LaunchPhaseOrder(run.phase) > LaunchPhaseOrder(LaunchIntent) then Committed(s)
      else if run.state != RunStarting then Aborted(InvalidState)
      else Committed(PutRun(s, run.(container := key.container, phase := LaunchCreated, version := run.version + 1)))
  }

  /** RecordRunStartIssued, through advanceRunPhase. */
  function RecordStartIssued(s: Ledger, id: RunId, key: RuntimeKey): Tx {
    if id !in s.runs then Aborted(NotFound)
    else
      var run := s.runs[id];
      if !RuntimeFactFence(run, key) then Aborted(StaleRun)
      else if LaunchPhaseOrder(run.phase) > LaunchPhaseOrder(LaunchCreated) then Committed(s)
      else if run.state != RunStarting || run.phase != LaunchCreated then Aborted(InvalidState)
      else Committed(PutRun(s, run.(phase := LaunchStartIssued, version := run.version + 1)))
  }

  /** ObserveProcessAndActivateRun */
  function Activate(s: Ledger, id: RunId, key: RuntimeKey): Tx {
    if id !in s.runs then Aborted(NotFound)
    else
      var run := s.runs[id];
      if run.state == RunActive && run.phase == LaunchProcessObserved then
        Check(RuntimeFactFence(run, key), StaleRun, s)
      else if run.state != RunStarting || run.phase != LaunchStartIssued then Aborted(InvalidState)
      else if !RuntimeFactFence(run, key) then Aborted(StaleRun)
      else if run.origin.task !in s.tasks then Aborted(NotFound)
      else
        var task := s.tasks[run.origin.task];
        if task.status != TaskQueued || task.currentRun != Some(run.id) || task.generation != run.origin.generation
        then Aborted(VersionConflict)
        else
          var active := run.(state := RunActive, phase := LaunchProcessObserved, version := run.version + 1);
          Committed(PutTask(PutRun(s, active), task.(status := TaskRunning, version := task.version + 1)))
  }

  /** RecordRunSession: a live run learns its native session once. */
  function RecordSession(s: Ledger, id: RunId, key: RuntimeKey, session: string): Tx {
    if session == "" then Aborted(InvalidArgument)
    else if id !in s.runs then Aborted(NotFound)
    else
      var run := s.runs[id];
      if !RuntimeFactFence(run, key) then Aborted(StaleRun)
      else if !run.Live() then Aborted(InvalidState)
      else if run.session != "" then Check(run.session == session, InvalidState, s)
      else Committed(PutRun(s, run.(session := session, version := run.version + 1)))
  }

  /** RecordRunHeartbeat */
  function RecordHeartbeat(s: Ledger, id: RunId, key: RuntimeKey): Tx {
    if id !in s.runs then Aborted(NotFound)
    else
      var run := s.runs[id];
      if !RuntimeFactFence(run, key) then Aborted(StaleRun)
      else if run.state != RunActive || run.phase != LaunchProcessObserved then Aborted(InvalidState)
      else Committed(PutRun(s, run.(version := run.version + 1)))
  }

  /** RecordRunCleanup */
  function RecordCleanup(
    s: Ledger, id: RunId, key: RuntimeKey, operation: OperationId, next: CleanupState, lastError: string
  ): Tx {
    if next == CleanupNotNeeded then Aborted(InvalidArgument)
    else if id !in s.runs then Aborted(NotFound)
    else
      var run := s.runs[id];
      if !RuntimeFactFence(run, key) || run.cleanupOperation != Some(operation) then Aborted(StaleRun)
      else if run.cleanup == next && (next != CleanupBlocked || run.fact.lastError == lastError) then Committed(s)
      else if !ValidCleanupTransition(run.cleanup, next, !run.Live()) then Aborted(InvalidState)
      else
        Committed(PutRun(s, run.(
                              cleanup := next,
                              fact := if next == CleanupBlocked then run.fact.(lastError := lastError) else run.fact,
                              version := run.version + 1)))
  }

  /** requestRunStop */
  function RequestStop(s: Ledger, id: RunId, reason: string, operation: Option<OperationId>): Tx {
    if id !in s.runs then Aborted(NotFound)
    else
      var run := s.runs[id];
      if !run.Live() then Aborted(InvalidState)
      else if run.stop.None? then
        var stop := Stop(reason, if operation.Some? then operation.value else s.nextId);
        Committed(PutRun(s, run.(stop := Some(stop), tokenRevoked := true, version := run.version + 1))
                  .(nextId := s.nextId + 1))
      else
        Check(run.stop.value.reason == reason && (operation.Some? ==> operation.value == run.stop.value.operation),
              ActionInProgress, s)
  }

  // ---- outcome ----

  /** authenticateRun, without the failing run's error. */
  predicate Authenticated(s: Ledger, id: RunId) {
    && id in s.runs
    && var run := s.runs[id];
    && run.origin.task in s.tasks
    && var task := s.tasks[run.origin.task];
    && !run.tokenRevoked && run.state == RunActive
    && task.currentRun == Some(run.id) && task.generation == run.origin.generation
    && task.origin.assignee == Some(run.origin.agent) && task.status == TaskRunning
  }

  function OutcomeRun(run: Run, outcome: TaskOutcome, head: Commit): Run {
    run.(outcome := Some(outcome), expectedHead := if outcome == OutcomeSubmit then Some(head) else None,
         tokenRevoked := true, version := run.version + 1)
  }

  /** A submit freezes the expected head in a capture intent that carries the row's new version. */
  function OutcomeTask(s: Ledger, task: Task, run: RunId, outcome: TaskOutcome, head: Commit): Task {
    task.(status := TaskFinishing, version := task.version + 1,
          pending := if outcome == OutcomeSubmit then Some(Pending(Capture, s.nextId, task.version + 1, run, head, None))
                     else task.pending)
  }

  /** The second transaction of RequestOutcome (applyOutcome). `task` and `run` are the rows
    the first transaction saw; `head` is the expanded expected head of a submit. */
  function ApplyOutcome(s: Ledger, id: RunId, outcome: TaskOutcome, task: Task, run: Run, head: Commit): Tx {
    if !Authenticated(s, id) then Aborted(StaleRun)
    else
      var current := s.runs[id];
      var row := s.tasks[current.origin.task];
      if row.version != task.version || row.status != task.status
         || current.version != run.version || current.state != run.state
      then Aborted(VersionConflict)
      else if row.origin.kind == TaskConversation && outcome == OutcomeSubmit then Aborted(InvalidState)
      else if row.pending.Some? then Aborted(ActionInProgress)
      else
        Committed(PutTask(PutRun(s, OutcomeRun(current, outcome, head)), OutcomeTask(s, row, id, outcome, head))
                  .(nextId := if outcome == OutcomeSubmit then s.nextId + 1 else s.nextId))
  }

  // ---- terminal ----

  datatype TerminalInput = TerminalInput(
    generation: nat,
    launchOperation: OperationId,
    nonce: Option<nat>,
    container: Option<nat>,
    state: RunState,
    fact: TerminalFact,
    session: string)

  /** runtimeTerminalFence */
  predicate TerminalFence(run: Run, input: TerminalInput) {
    && run.origin.generation == input.generation
    && run.origin.launchOperation == input.launchOperation
    && if run.nonce.None? then
         (run.state == RunStarting || run.state == RunFailed) && run.phase == LaunchIntent && run.container.None?
         && input.state == RunFailed && input.nonce.None? && input.container.None?
       else run.nonce == input.nonce && run.container == input.container
  }

  /** A message that its run did not acknowledge goes back to its task. */
  function Redeliver(message: Message, now: Time): Message {
    message.(
      state := MessagePending, deliveredRun := None, version := message.version + 1,
      nextAt := if message.Exhausted() then None else Some(RetryAt(now, message.count)))
  }

  predicate WasDeliveredTo(message: Message, run: RunId) {
    message.state == MessageDelivered && message.deliveredRun == Some(run)
  }

  /** redeliverRunMessages: every message still delivered to the run, and no other. */
  function Redelivered(messages: map<MessageId, Message>, run: RunId, now: Time): map<MessageId, Message> {
    map m | m in messages :: if WasDeliveredTo(messages[m], run) then Redeliver(messages[m], now) else messages[m]
  }

  /** The result of the PendingWakeAt query: whether and when the task has to run again. */
  predicate HasPendingWake(s: Ledger, task: TaskId) {
    exists m :: m in s.messages && s.messages[m].task == task && s.messages[m].PendingWake()
  }

  predicate EarliestWake(s: Ledger, task: TaskId, at: Time) {
    && (exists m :: m in s.messages && s.messages[m].task == task && s.messages[m].PendingWake()
                    && s.messages[m].nextAt.value == at)
    && (forall m :: m in s.messages && s.messages[m].task == task && s.messages[m].PendingWake()
                    ==> at <= s.messages[m].nextAt.value)
  }

  /** projectRuntimeFailure, on the task row. */
  function RuntimeFailed(task: Task, state: RunState, now: Time): Task {
    var decision :=
      if state == RunTimedOut || state == RunInterrupted then RetryDecision(TaskQueued, task.retryCount)
      else DecideRetry(task.retryCount, task.origin.maxRetries);
    task.(
      status := decision.status, currentRun := None, retryCount := decision.retryCount,
      nextRunAt := if decision.status == TaskQueued then RetryAt(now, decision.retryCount) else task.nextRunAt,
      version := task.version + 1)
  }

  function Max(a: Time, b: Time): Time {
    if a < b then b else a
  }

  /** projectTerminalTask: `wake` is the answer of the PendingWakeAt query. */
  ghost function ProjectTerminal(s: Ledger, task: Task, run: Run, wake: Option<Time>, now: Time): Tx {
    match run.outcome
    case Some(OutcomeWait) =>
      if task.status != TaskFinishing then Aborted(InvalidState)
      else
        var row := task.(currentRun := None, version := task.version + 1);
        Committed(PutTask(s, if wake.Some? then row.(status := TaskQueued, nextRunAt := Max(wake.value, now))
                             else row.(status := TaskWaiting)))
    case Some(OutcomeFail) =>
      if task.status != TaskFinishing then Aborted(InvalidState)
      else
        var row := task.(status := TaskFailed, currentRun := None, pending := None, version := task.version + 1);
        Conclude(PutTask(s, row), row, now)
    case Some(OutcomeSubmit) =>
      Check(task.status == TaskFinishing && task.pending.Some? && task.pending.value.action == Capture
            && task.pending.value.run == run.id, ActionInProgress, s)
    case None =>
      if task.status != TaskQueued && task.status != TaskRunning then Aborted(InvalidState)
      else
        var row := RuntimeFailed(task, run.state, now);
        if row.status != task.status && !ValidTaskTransition(task.origin.kind, task.status, row.status)
        then Aborted(InvalidState)
        else if row.status == TaskFailed then Conclude(PutTask(s, row), row, now)
        else Committed(PutTask(s, row))
  }

  /** The answer PendingWakeAt gives, with the redelivered messages already pending. */
  ghost function WakeAt(s: Ledger, task: TaskId): (at: Option<Time>)
    ensures at.Some? ==> HasPendingWake(s, task) && EarliestWake(s, task, at.value)
  {
    if exists t :: EarliestWake(s, task, t) then
      var t :| EarliestWake(s, task, t);
      Some(t)
    else None
  }

  /** sameTerminalFact: what an ended run recorded is what is reported again. */
  predicate SameTerminalFact(run: Run, input: TerminalInput) {
    run.state == input.state && run.fact == input.fact && (input.session == "" || run.session == input.session)
  }

  /** The run row after its terminal fact. A reported session replaces a recorded one. */
  function EndedRun(run: Run, input: TerminalInput): Run {
    run.(state := input.state, fact := input.fact, session := if input.session != "" then input.session else run.session,
         tokenRevoked := true, version := run.version + 1)
  }

  /** The ended run, with its undelivered messages returned. */
  function Terminated(s: Ledger, run: Run, input: TerminalInput, now: Time): Ledger {
    PutRun(s, EndedRun(run, input))
    .(messages := Redelivered(s.messages, run.id, now))
  }

  /** RecordRuntimeRunTerminal */
  ghost function RecordTerminal(s: Ledger, id: RunId, input: TerminalInput, now: Time): Tx {
    if input.state == RunStarting || input.state == RunActive then Aborted(InvalidArgument)
    else if id !in s.runs then Aborted(NotFound)
    else
      var run := s.runs[id];
      if !TerminalFence(run, input) then Aborted(StaleRun)
      else if run.origin.task !in s.tasks then Aborted(NotFound)
      else if !run.Live() then Check(SameTerminalFact(run, input), InvalidState, s)
      else if !ValidRunTransition(run.state, input.state) then Aborted(InvalidState)
      else
        var task := s.tasks[run.origin.task];
        var s1 := Terminated(s, run, input, now);
        if task.currentRun != Some(id) then Committed(s1)
        else if task.status == TaskCancelled then
          Committed(PutTask(s1, task.(currentRun := None, version := task.version + 1)))
        else if task.generation == run.origin.generation then
          ProjectTerminal(s1, task, s1.runs[id], WakeAt(s1, task.id), now)
        else Committed(s1)
  }
}
