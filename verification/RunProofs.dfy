/** Claiming, launching, activating, stopping, finishing and cleaning up runs keep the invariant. */
module RunProofs {
  import opened Commits
  import opened Model
  import opened Tables
  import opened MessageSteps
  import opened RunSteps
  import opened TaskSteps
  import opened GitSteps
  import opened Invariant
  import opened RowChanges
  import opened Evolution
  import opened MessageProofs

  // ---- one row, one step ----

  lemma RowsEvolve(s: Ledger, run: Option<Run>, task: Task, n: nat)
    requires task.id in s.tasks && TaskEvolves(s.tasks[task.id], task) && s.nextId <= n
    requires run.Some? ==> run.value.id in s.runs && RunEvolves(s.runs[run.value.id], run.value)
    ensures Evolves(s, WithRows(s, run, task).(nextId := n))
  {
    hide TaskEvolves, RunEvolves;
    OthersReflexive(s);
  }

  lemma RowStep(s: Ledger, run: Option<Run>, task: Task, n: nat)
    requires Inv(s) && TaskMayBecome(s, {}, {}, run, task) && s.nextId <= n
    requires TaskEvolves(s.tasks[task.id], task)
    requires run.Some? ==> run.value.id in s.runs && RunEvolves(s.runs[run.value.id], run.value)
    ensures Kept(s, WithRows(s, run, task).(nextId := n))
  {
    hide InvExcept, Evolves, RunEvolves, TaskEvolves;
    RowChange(s, {}, {}, run, task);
    hide TaskMayBecome;
    NextIdGrows(WithRows(s, run, task), {}, WithRows(s, run, task).(nextId := n));
    RowsEvolve(s, run, task, n);
  }

  lemma RunEvolvesAlone(s: Ledger, run: Run, n: nat)
    requires run.id in s.runs && RunEvolves(s.runs[run.id], run) && s.nextId <= n
    ensures Evolves(s, PutRun(s, run).(nextId := n))
  {
    hide TaskEvolves, RunEvolves;
    OthersReflexive(s);
  }

  lemma OthersReflexive(s: Ledger)
    ensures forall k :: k in s.tasks ==> TaskEvolves(s.tasks[k], s.tasks[k])
    ensures forall k :: k in s.runs ==> RunEvolves(s.runs[k], s.runs[k])
  {
  }

  lemma RunStep(s: Ledger, run: Run, n: nat)
    requires Inv(s) && RunMayChange(s, run) && RunEvolves(s.runs[run.id], run) && s.nextId <= n
    ensures Kept(s, PutRun(s, run).(nextId := n))
  {
    hide InvExcept, Evolves, RunEvolves;
    RunChange(s, {}, run);
    hide RunMayChange;
    NextIdGrows(PutRun(s, run), {}, PutRun(s, run).(nextId := n));
    RunEvolvesAlone(s, run, n);
  }

  // ---- launch ----

  lemma BeginLaunchKeeps(s: Ledger, id: RunId, generation: nat, nonce: nat, cleanupOperation: OperationId)
    requires Inv(s) && BeginLaunch(s, id, generation, nonce, cleanupOperation).Committed?
    ensures Kept(s, BeginLaunch(s, id, generation, nonce, cleanupOperation).ledger)
  {
    hide InvExcept, Evolves;
    RunAt(s, {}, id);
    var run := s.runs[id];
    if run.nonce.Some? {
      EvolvesReflexive(s);
    } else {
      RunStep(s, run.(nonce := Some(nonce), cleanupOperation := Some(cleanupOperation),
                      cleanup := CleanupPending, version := run.version + 1), s.nextId);
    }
  }

  lemma ContainerCreatedKeeps(s: Ledger, id: RunId, key: RuntimeKey)
    requires Inv(s) && RecordContainerCreated(s, id, key).Committed?
    ensures Kept(s, RecordContainerCreated(s, id, key).ledger)
  {
    hide InvExcept, Evolves;
    RunAt(s, {}, id);
    var run := s.runs[id];
    if LaunchPhaseOrder(run.phase) > LaunchPhaseOrder(LaunchIntent) {
      EvolvesReflexive(s);
    } else {
      RunStep(s, run.(container := key.container, phase := LaunchCreated, version := run.version + 1), s.nextId);
    }
  }

  lemma StartIssuedKeeps(s: Ledger, id: RunId, key: RuntimeKey)
    requires Inv(s) && RecordStartIssued(s, id, key).Committed?
    ensures Kept(s, RecordStartIssued(s, id, key).ledger)
  {
    hide InvExcept, Evolves;
    RunAt(s, {}, id);
    var run := s.runs[id];
    if LaunchPhaseOrder(run.phase) > LaunchPhaseOrder(LaunchCreated) {
      EvolvesReflexive(s);
    } else {
      RunStep(s, run.(phase := LaunchStartIssued, version := run.version + 1), s.nextId);
    }
  }

  lemma SessionKeeps(s: Ledger, id: RunId, key: RuntimeKey, session: string)
    requires Inv(s) && RecordSession(s, id, key, session).Committed?
    ensures Kept(s, RecordSession(s, id, key, session).ledger)
  {
    hide InvExcept, Evolves;
    RunAt(s, {}, id);
    var run := s.runs[id];
    if run.session != "" {
      EvolvesReflexive(s);
    } else {
      RunStep(s, run.(session := session, version := run.version + 1), s.nextId);
    }
  }

  lemma HeartbeatKeeps(s: Ledger, id: RunId, key: RuntimeKey)
    requires Inv(s) && RecordHeartbeat(s, id, key).Committed?
    ensures Kept(s, RecordHeartbeat(s, id, key).ledger)
  {
    hide InvExcept, Evolves;
    RunAt(s, {}, id);
    RunStep(s, s.runs[id].(version := s.runs[id].version + 1), s.nextId);
  }

  lemma CleanupKeeps(
    s: Ledger, id: RunId, key: RuntimeKey, operation: OperationId, next: CleanupState, lastError: string
  )
    requires Inv(s) && RecordCleanup(s, id, key, operation, next, lastError).Committed?
    ensures Kept(s, RecordCleanup(s, id, key, operation, next, lastError).ledger)
  {
    hide InvExcept, Evolves;
    RunAt(s, {}, id);
    var run := s.runs[id];
    if run.cleanup == next && (next != CleanupBlocked || run.fact.lastError == lastError) {
      EvolvesReflexive(s);
    } else {
      RunStep(s, run.(
                   cleanup := next,
                   fact := if next == CleanupBlocked then run.fact.(lastError := lastError) else run.fact,
                   version := run.version + 1), s.nextId);
    }
  }

  lemma RequestStopKeeps(s: Ledger, id: RunId, reason: string, operation: Option<OperationId>)
    requires Inv(s) && RequestStop(s, id, reason, operation).Committed?
    ensures Kept(s, RequestStop(s, id, reason, operation).ledger)
  {
    hide InvExcept, Evolves;
    RunAt(s, {}, id);
    var run := s.runs[id];
    if run.stop.None? {
      var stop := Stop(reason, if operation.Some? then operation.value else s.nextId);
      RunStep(s, run.(stop := Some(stop), tokenRevoked := true, version := run.version + 1), s.nextId + 1);
    } else {
      EvolvesReflexive(s);
    }
  }

  // ---- activation ----

  lemma ActivationFits(s: Ledger, run: Run, active: Run, task: Task, row: Task)
    requires run.id in s.runs && s.runs[run.id] == run && RunOk(s, run)
    requires task.id == run.origin.task && task.id in s.tasks && s.tasks[task.id] == task && TaskOk(s, {}, task)
    requires run.state == RunStarting && run.phase == LaunchStartIssued
    requires active == run.(state := RunActive, phase := LaunchProcessObserved, version := run.version + 1)
    requires task.status == TaskQueued && task.currentRun == Some(run.id) && task.generation == run.origin.generation
    requires row == task.(status := TaskRunning, version := task.version + 1)
    ensures TaskMayBecome(s, {}, {}, Some(active), row)
  {
    hide IsAncestor, CapturedAncestry;
  }

  lemma ActivateKeeps(s: Ledger, id: RunId, key: RuntimeKey)
    requires Inv(s) && Activate(s, id, key).Committed?
    ensures Kept(s, Activate(s, id, key).ledger)
  {
    hide InvExcept, Evolves, TaskMayBecome, TaskOk, RunOk;
    RunAt(s, {}, id);
    var run := s.runs[id];
    if run.state == RunActive && run.phase == LaunchProcessObserved {
      EvolvesReflexive(s);
    } else {
      var task := s.tasks[run.origin.task];
      TaskAt(s, {}, run.origin.task);
      var active := run.(state := RunActive, phase := LaunchProcessObserved, version := run.version + 1);
      var row := task.(status := TaskRunning, version := task.version + 1);
      ActivationFits(s, run, active, task, row);
      RowStep(s, Some(active), row, s.nextId);
    }
  }

  // ---- outcome ----

  lemma OutcomeFits(s: Ledger, run: Run, outcome: TaskOutcome, head: Commit, task: Task)
    requires run.id in s.runs && s.runs[run.id] == run && RunOk(s, run)
    requires task.id == run.origin.task && task.id in s.tasks && s.tasks[task.id] == task && TaskOk(s, {}, task)
    requires Authenticated(s, run.id) && task.pending.None?
    requires !(task.origin.kind == TaskConversation && outcome == OutcomeSubmit)
    ensures TaskMayBecome(s, {}, {}, Some(OutcomeRun(run, outcome, head)), OutcomeTask(s, task, run.id, outcome, head))
  {
    hide IsAncestor, CapturedAncestry;
  }

  lemma OutcomeKeeps(s: Ledger, id: RunId, outcome: TaskOutcome, task: Task, run: Run, head: Commit)
    requires Inv(s) && ApplyOutcome(s, id, outcome, task, run, head).Committed?
    ensures Kept(s, ApplyOutcome(s, id, outcome, task, run, head).ledger)
  {
    hide InvExcept, Evolves, TaskMayBecome;
    RunAt(s, {}, id);
    var current := s.runs[id];
    var row := s.tasks[current.origin.task];
    TaskAt(s, {}, current.origin.task);
    OutcomeFits(s, current, outcome, head, row);
    hide RunFits, TaskFits, NamesFit, PairFits;
    RowStep(s, Some(OutcomeRun(current, outcome, head)), OutcomeTask(s, row, id, outcome, head),
            if outcome == OutcomeSubmit then s.nextId + 1 else s.nextId);
  }

  // ---- claim ----

  lemma NoOtherRun(s: Ledger, agent: AgentId)
    requires Occupancy(s, agent) == 0
    ensures forall r :: r in s.runs && s.runs[r].origin.agent == agent ==> !s.runs[r].OccupiesAgent()
  {
    var occupying := set r | r in s.runs && s.runs[r].origin.agent == agent && s.runs[r].OccupiesAgent();
    assert occupying == {};
    assert forall r :: r in s.runs && s.runs[r].origin.agent == agent && s.runs[r].OccupiesAgent() ==> r in occupying;
  }

  function ClaimedRow(task: Task, run: RunId): Task {
    task.(generation := task.generation + 1, currentRun := Some(run), version := task.version + 1)
  }

  /** The new run is added first; the row that names it second. */
  function WithClaim(s: Ledger, task: Task): Ledger
    requires task.origin.assignee.Some?
  {
    PutTask(PutRun(s, NewRun(s, task)), ClaimedRow(task, s.nextId)).(nextId := s.nextId + 2)
  }

  ghost predicate ClaimReady(s: Ledger, task: Task) {
    && task.id in s.tasks && s.tasks[task.id] == task && task.origin.assignee.Some?
    && task.status == TaskQueued && task.currentRun.None?
    && Occupancy(s, task.origin.assignee.value) == 0
    && |LiveRuns(s)| < s.maxRuns
  }

  lemma ClaimedTaskFits(s: Ledger, task: Task)
    requires ClaimReady(s, task) && TaskOk(s, {}, task)
    ensures TaskOk(WithClaim(s, task), {}, ClaimedRow(task, s.nextId))
  {
    hide IsAncestor, CapturedAncestry, Occupancy;
    hide LiveRuns;
  }

  lemma UnclaimedTaskKept(s: Ledger, task: Task, k: TaskId)
    requires IdsOk(s) && ClaimReady(s, task) && k in s.tasks && k != task.id && TaskOk(s, {}, s.tasks[k])
    ensures TaskOk(WithClaim(s, task), {}, s.tasks[k])
  {
    hide IsAncestor, TaskFits, Occupancy, LiveRuns;
  }

  lemma ClaimTasks(s: Ledger, task: Task)
    requires IdsOk(s) && TasksOk(s, {}) && ClaimReady(s, task)
    ensures TasksOk(WithClaim(s, task), {})
  {
    hide TaskOk, Occupancy, LiveRuns;
    ClaimedTaskFits(s, task);
    forall k | k in s.tasks && k != task.id
      ensures TaskOk(WithClaim(s, task), {}, s.tasks[k])
    {
      UnclaimedTaskKept(s, task, k);
    }
  }

  lemma ClaimRuns(s: Ledger, task: Task)
    requires IdsOk(s) && RunsOk(s) && OneGeneration(s) && OneLiveRun(s) && ClaimReady(s, task)
    ensures RunsOk(WithClaim(s, task)) && OneGeneration(WithClaim(s, task)) && OneLiveRun(WithClaim(s, task))
  {
    NoOtherRun(s, task.origin.assignee.value);
    hide Occupancy;
    var s1 := WithClaim(s, task);
    forall k | k in s1.runs
      ensures RunOk(s1, s1.runs[k])
    {
      if k in s.runs {
        assert RunOk(s, s.runs[k]);
      }
    }
    assert forall k :: k in s.runs && s.runs[k].origin.task == task.id ==> s.runs[k].origin.generation <= task.generation by {
      forall k | k in s.runs && s.runs[k].origin.task == task.id
        ensures s.runs[k].origin.generation <= task.generation
      {
        assert RunOk(s, s.runs[k]);
      }
    }
    hide RunOk, RunFits;
  }

  lemma ClaimLimit(s: Ledger, task: Task)
    requires IdsOk(s) && ClaimReady(s, task)
    ensures RunLimitOk(WithClaim(s, task))
  {
    hide Occupancy;
    var s1 := WithClaim(s, task);
    assert LiveRuns(s1) == LiveRuns(s) + {s.nextId};
  }

  lemma ClaimRest(s: Ledger, task: Task)
    requires IdsOk(s) && MessagesOk(s, {}) && OneConversation(s) && GitOk(s) && ClaimReady(s, task)
    ensures IdsOk(WithClaim(s, task)) && MessagesOk(WithClaim(s, task), {})
    ensures OneConversation(WithClaim(s, task)) && GitOk(WithClaim(s, task))
  {
    hide IsAncestor, CapturedAncestry, TaskFits, Occupancy, Accounted;
    var s1 := WithClaim(s, task);
    forall k | k in s.messages
      ensures MessageOk(s1, {}, s.messages[k])
    {
      assert MessageOk(s, {}, s.messages[k]);
    }
    hide MessageOk;
  }

  lemma ClaimEvolves(s: Ledger, task: Task)
    requires task.id in s.tasks && s.tasks[task.id] == task && task.origin.assignee.Some? && s.nextId !in s.runs
    requires task.status == TaskQueued
    ensures Evolves(s, WithClaim(s, task))
  {
    OthersReflexive(s);
    assert TaskEvolves(task, ClaimedRow(task, s.nextId));
    hide RunEvolves, TaskEvolves;
  }

  lemma ClaimKeeps(s: Ledger, id: TaskId, now: Time)
    requires Inv(s) && Claim(s, id, now).Committed?
    ensures Kept(s, Claim(s, id, now).ledger)
  {
    hide IdsOk, TasksOk, RunsOk, MessagesOk, OneConversation, OneGeneration, OneLiveRun, GitOk, RunLimitOk, ProjectsOk, Evolves;
    var task := s.tasks[id];
    TaskAt(s, {}, id);
    FreshId(s, {});
    ClaimTasks(s, task);
    ClaimRuns(s, task);
    ClaimLimit(s, task);
    ClaimRest(s, task);
    ClaimEvolves(s, task);
    ProjectsKept(s, WithClaim(s, task));
    hide TaskOk, Occupancy, LiveRuns;
  }

  // ---- the terminal fact ----

  lemma MinTime(times: set<Time>) returns (least: Time)
    requires times != {}
    ensures least in times && forall t :: t in times ==> least <= t
    decreases |times|
  {
    var t :| t in times;
    if times == {t} {
      least := t;
    } else {
      var rest := MinTime(times - {t});
      assert forall u :: u in times ==> u == t || u in times - {t};
      least := if t < rest then t else rest;
    }
  }

  /** The PendingWakeAt query answers whenever a pending wake exists. */
  lemma WakeFound(s: Ledger, task: TaskId)
    requires HasPendingWake(s, task)
    ensures WakeAt(s, task).Some?
  {
    var times := set m | m in s.messages && s.messages[m].task == task && s.messages[m].PendingWake()
                   :: s.messages[m].nextAt.value;
    var m :| m in s.messages && s.messages[m].task == task && s.messages[m].PendingWake();
    assert s.messages[m].nextAt.value in times;
    var least := MinTime(times);
    forall w | w in s.messages && s.messages[w].task == task && s.messages[w].PendingWake()
      ensures least <= s.messages[w].nextAt.value
    {
      assert s.messages[w].nextAt.value in times;
    }
    assert EarliestWake(s, task, least);
  }

  lemma RedeliveredKeeps(s: Ledger, run: RunId, now: Time)
    requires Inv(s)
    ensures Inv(s.(messages := Redelivered(s.messages, run, now)))
    ensures NothingDeliveredTo(s.(messages := Redelivered(s.messages, run, now)), run)
    ensures MessagesEvolve(s, s.(messages := Redelivered(s.messages, run, now)))
  {
    hide InvExcept;
    var redelivered := Redelivered(s.messages, run, now);
    forall k | k in redelivered
      ensures redelivered[k].id == k && k < s.nextId && MessageOk(s, {}, redelivered[k])
    {
      MessageAt(s, {}, k);
    }
    MessagesChange(s, {}, redelivered);
  }

  /** A live run whose messages went back, with its task row, just before the run ends. */
  ghost predicate Ending(s: Ledger, run: Run, task: Task, input: TerminalInput) {
    && run.id in s.runs && s.runs[run.id] == run && run.Live() && RunOk(s, run)
    && task.id in s.tasks && s.tasks[task.id] == task && TaskOk(s, {}, task) && task.id == run.origin.task
    && ValidRunTransition(run.state, input.state) && input.state != RunActive
    && NothingDeliveredTo(s, run.id)
  }

  /** What the terminal transaction may leave in the task row, for each way the run can end. */
  ghost predicate EndsAs(s: Ledger, run: Run, task: Task, row: Task) {
    if task.status == TaskCancelled then row == task.(currentRun := None, version := task.version + 1)
    else
      match run.outcome
      case Some(OutcomeSubmit) => row == task
      case Some(OutcomeWait) =>
        row == task.(currentRun := None, version := row.version, status := row.status, nextRunAt := row.nextRunAt)
        && (row.status == TaskQueued || (row.status == TaskWaiting && NoWakeOwed(s, task.id)))
      case Some(OutcomeFail) => row == task.(status := TaskFailed, currentRun := None, pending := None, version := row.version)
      case None =>
        row == task.(currentRun := None, version := row.version, status := row.status, nextRunAt := row.nextRunAt,
                     retryCount := row.retryCount)
        && (row.status == TaskQueued || row.status == TaskFailed) && row.retryCount <= task.origin.maxRetries
  }

  lemma EndRowFits(s: Ledger, run: Run, task: Task, input: TerminalInput, row: Task)
    requires Ending(s, run, task, input) && EndsAs(s, run, task, row)
    ensures var after := if row.status == TaskFailed then {task.id} else {};
            TaskOk(WithRows(s, Some(EndedRun(run, input)), row), after, row)
  {
    hide IsAncestor, CapturedAncestry, NoWakeOwed, NothingDeliveredTo;
  }

  lemma EndFits(s: Ledger, run: Run, task: Task, input: TerminalInput, row: Task)
    requires Ending(s, run, task, input) && EndsAs(s, run, task, row)
    ensures var after := if row.status == TaskFailed then {task.id} else {};
            TaskMayBecome(s, {}, after, Some(EndedRun(run, input)), row)
  {
    EndRowFits(s, run, task, input, row);
    hide CurrentRunFits, NamesFit, IsAncestor, CapturedAncestry, NoWakeOwed, NothingDeliveredTo;
  }

  /** A task is Finishing exactly when its current run has requested an outcome. */
  lemma OutcomeMeansFinishing(s: Ledger, k: TaskId)
    requires Inv(s) && k in s.tasks && s.tasks[k].currentRun.Some? && s.tasks[k].status != TaskCancelled
    ensures s.tasks[k].currentRun.value in s.runs
    ensures s.tasks[k].status == TaskFinishing <==> s.runs[s.tasks[k].currentRun.value].outcome.Some?
    ensures s.tasks[k].status != TaskFinishing ==> s.tasks[k].status == TaskQueued || s.tasks[k].status == TaskRunning
    ensures s.runs[s.tasks[k].currentRun.value].outcome == Some(OutcomeSubmit) ==>
              s.tasks[k].pending.Some? && s.tasks[k].pending.value.action == Capture
              && s.tasks[k].pending.value.run == s.tasks[k].currentRun.value
  {
    hide InvExcept, NamesFit, PairFits, ResultFits;
    TaskAt(s, {}, k);
  }

  /** With the run's messages back and no wake pending, nothing obliges the task to run again:
    a wake message delivered to any other run would be a second live run of the same agent. */
  lemma NoWakeLeft(s: Ledger, run: Run, task: Task)
    requires Inv(s) && run.id in s.runs && s.runs[run.id] == run && run.Live() && NothingDeliveredTo(s, run.id)
    requires task.id in s.tasks && s.tasks[task.id] == task && task.id == run.origin.task
    requires !HasPendingWake(s, task.id)
    ensures NoWakeOwed(s, task.id)
  {
    hide InvExcept, TaskOk, RunFits;
    RunAt(s, {}, run.id);
    forall m | m in s.messages && s.messages[m].task == task.id
      ensures !s.messages[m].OwesWake()
    {
      MessageAt(s, {}, m);
      if s.messages[m].OwesWake() && s.messages[m].state == MessageDelivered {
        OneRunPerAgent(s, run.id, s.messages[m].deliveredRun.value);
      }
    }
  }

  lemma OneRunPerAgent(s: Ledger, a: RunId, b: RunId)
    requires Inv(s) && a in s.runs && b in s.runs && BothLive(s.runs[a], s.runs[b])
    ensures a == b
  {
    hide IdsOk, TasksOk, RunsOk, MessagesOk, OneConversation, OneGeneration, GitOk, RunLimitOk, ProjectsOk;
  }

  lemma EndEvolves(s: Ledger, run: Run, task: Task, input: TerminalInput, row: Task)
    requires Ending(s, run, task, input) && EndsAs(s, run, task, row)
    requires row == task || task.version < row.version
    ensures RunEvolves(run, EndedRun(run, input)) && TaskEvolves(task, row)
  {
    hide RunFits, NothingDeliveredTo, NoWakeOwed, NamesFit, PairFits, ResultFits;
  }

  lemma EndStep(s: Ledger, run: Run, task: Task, input: TerminalInput, row: Task)
    requires Inv(s) && Ending(s, run, task, input) && EndsAs(s, run, task, row)
    requires row == task || task.version < row.version
    requires run.nonce == input.nonce
    ensures var after := if row.status == TaskFailed then {task.id} else {};
            var s1 := WithRows(s, Some(EndedRun(run, input)), row);
            InvExcept(s1, after) && Evolves(s, s1) && PairFits(s1, {}, row)
  {
    hide InvExcept, Evolves, TaskMayBecome;
    EndFits(s, run, task, input, row);
    EndEvolves(s, run, task, input, row);
    hide EndsAs, TaskEvolves, RunEvolves, TaskFits, CurrentRunFits, NamesFit, RunOk, NothingDeliveredTo, PairFits;
    var after := if row.status == TaskFailed then {task.id} else {};
    RowChange(s, {}, after, Some(EndedRun(run, input)), row);
    RowsEvolve(s, Some(EndedRun(run, input)), row, s.nextId);
    TaskAt(WithRows(s, Some(EndedRun(run, input)), row), after, task.id);
  }

  /** The run row after its terminal fact, beside its task row as it was. */
  function Ended(s: Ledger, run: Run, input: TerminalInput): Ledger {
    PutRun(s, EndedRun(run, input))
  }

  ghost function Projected(s: Ledger, run: Run, task: Task, input: TerminalInput, now: Time): Tx {
    var s1 := Ended(s, run, input);
    ProjectTerminal(s1, task, EndedRun(run, input), WakeAt(s1, task.id), now)
  }

  /** The task row the end of its current run leaves. */
  ghost function RowAfterEnd(s: Ledger, run: Run, task: Task, input: TerminalInput, now: Time): Task {
    if task.status == TaskCancelled then task.(currentRun := None, version := task.version + 1)
    else
      match run.outcome
      case Some(OutcomeSubmit) => task
      case Some(OutcomeFail) => task.(status := TaskFailed, currentRun := None, pending := None, version := task.version + 1)
      case Some(OutcomeWait) =>
        var wake := WakeAt(Ended(s, run, input), task.id);
        var row := task.(currentRun := None, version := task.version + 1);
        if wake.Some? then row.(status := TaskQueued, nextRunAt := Max(wake.value, now)) else row.(status := TaskWaiting)
      case None => RuntimeFailed(task, input.state, now)
  }

  ghost predicate CurrentlyEnding(s: Ledger, run: Run, task: Task, input: TerminalInput) {
    Ending(s, run, task, input) && task.currentRun == Some(run.id) && task.status != TaskCancelled && run.nonce == input.nonce
  }

  ghost predicate RowIs(s: Ledger, row: Task) {
    row.id in s.tasks && s.tasks[row.id] == row
  }

  lemma EndAndConclude(s: Ledger, run: Run, task: Task, input: TerminalInput, row: Task, now: Time)
    requires Inv(s) && CurrentlyEnding(s, run, task, input) && EndsAs(s, run, task, row)
    requires task.version < row.version && row.status == TaskFailed
    ensures var s1 := PutTask(Ended(s, run, input), row);
            Conclude(s1, row, now).Committed? && Kept(s, Conclude(s1, row, now).ledger)
            && Conclude(s1, row, now).ledger.runs == s1.runs
            && row.id in Conclude(s1, row, now).ledger.tasks && Conclude(s1, row, now).ledger.tasks[row.id] == row
  {
    hide InvExcept, Evolves, PairFits, Concludes, Conclude;
    EndStep(s, run, task, input, row);
    hide Ending, NoWakeOwed;
    var s1 := PutTask(Ended(s, run, input), row);
    assert s1 == WithRows(s, Some(EndedRun(run, input)), row);
    assert {task.id} - {task.id} == {};
    ConcludeKeeps(s1, {task.id}, row, now);
    ConcludesEvolves(s1, Conclude(s1, row, now).ledger);
    ConcludesKeys(s1, Conclude(s1, row, now).ledger);
    EvolvesTransitive(s, s1, Conclude(s1, row, now).ledger);
  }

  lemma EndAndCommit(s: Ledger, run: Run, task: Task, input: TerminalInput, row: Task)
    requires Inv(s) && Ending(s, run, task, input) && EndsAs(s, run, task, row) && run.nonce == input.nonce
    requires row == task || task.version < row.version
    requires row.status != TaskFailed
    ensures Kept(s, PutTask(Ended(s, run, input), row))
  {
    hide InvExcept, Evolves, EndsAs, PairFits;
    EndStep(s, run, task, input, row);
    hide Ending;
    assert PutTask(Ended(s, run, input), row) == WithRows(s, Some(EndedRun(run, input)), row);
  }

  lemma ProjectWait(s: Ledger, run: Run, task: Task, input: TerminalInput, now: Time)
    requires Inv(s) && CurrentlyEnding(s, run, task, input) && run.outcome == Some(OutcomeWait)
    ensures Projected(s, run, task, input, now).Committed? && Kept(s, Projected(s, run, task, input, now).ledger)
    ensures Projected(s, run, task, input, now).ledger.runs == Ended(s, run, input).runs
    ensures RowIs(Projected(s, run, task, input, now).ledger, RowAfterEnd(s, run, task, input, now))
  {
    hide InvExcept, Evolves, TaskOk, RunOk, NoWakeOwed;
    OutcomeMeansFinishing(s, task.id);
    var s1 := Ended(s, run, input);
    var wake := WakeAt(s1, task.id);
    if wake.None? {
      if HasPendingWake(s, task.id) {
        assert HasPendingWake(s1, task.id);
        WakeFound(s1, task.id);
        assert false;
      }
      NoWakeLeft(s, run, task);
    }
    hide HasPendingWake, NothingDeliveredTo;
    var row := task.(currentRun := None, version := task.version + 1);
    EndAndCommit(s, run, task, input, if wake.Some? then row.(status := TaskQueued, nextRunAt := Max(wake.value, now))
                                      else row.(status := TaskWaiting));
  }

  lemma ProjectFail(s: Ledger, run: Run, task: Task, input: TerminalInput, now: Time)
    requires Inv(s) && CurrentlyEnding(s, run, task, input) && run.outcome == Some(OutcomeFail)
    ensures Projected(s, run, task, input, now).Committed? && Kept(s, Projected(s, run, task, input, now).ledger)
    ensures Projected(s, run, task, input, now).ledger.runs == Ended(s, run, input).runs
    ensures RowIs(Projected(s, run, task, input, now).ledger, RowAfterEnd(s, run, task, input, now))
  {
    hide InvExcept, Evolves, TaskOk, RunOk, NothingDeliveredTo;
    OutcomeMeansFinishing(s, task.id);
    EndAndConclude(s, run, task, input,
                   task.(status := TaskFailed, currentRun := None, pending := None, version := task.version + 1), now);
    hide Conclude;
  }

  lemma ProjectSubmit(s: Ledger, run: Run, task: Task, input: TerminalInput, now: Time)
    requires Inv(s) && CurrentlyEnding(s, run, task, input) && run.outcome == Some(OutcomeSubmit)
    ensures Projected(s, run, task, input, now) == Committed(Ended(s, run, input))
    ensures Kept(s, Ended(s, run, input))
  {
    hide InvExcept, Evolves, TaskOk, RunOk, NothingDeliveredTo;
    OutcomeMeansFinishing(s, task.id);
    EndAndCommit(s, run, task, input, task);
    assert s.tasks[task.id := task] == s.tasks;
    assert PutTask(Ended(s, run, input), task) == Ended(s, run, input);
  }

  lemma SubmitRowStays(s: Ledger, run: Run, task: Task, input: TerminalInput, now: Time)
    requires CurrentlyEnding(s, run, task, input) && run.outcome == Some(OutcomeSubmit)
    ensures RowIs(Ended(s, run, input), RowAfterEnd(s, run, task, input, now))
  {
    hide TaskOk, RunOk;
  }

  lemma ProjectFailure(s: Ledger, run: Run, task: Task, input: TerminalInput, now: Time)
    requires Inv(s) && CurrentlyEnding(s, run, task, input) && run.outcome.None?
    ensures Projected(s, run, task, input, now).Committed? && Kept(s, Projected(s, run, task, input, now).ledger)
    ensures Projected(s, run, task, input, now).ledger.runs == Ended(s, run, input).runs
    ensures RowIs(Projected(s, run, task, input, now).ledger, RowAfterEnd(s, run, task, input, now))
  {
    hide InvExcept, Evolves, RunOk, NothingDeliveredTo, CurrentRunFits, NamesFit, PairFits, PendingFits, KindFits, ResultFits;
    OutcomeMeansFinishing(s, task.id);
    var row := RuntimeFailed(task, input.state, now);
    assert row.retryCount <= task.origin.maxRetries;
    hide TaskOk;
    if row.status == TaskFailed {
      EndAndConclude(s, run, task, input, row, now);
    } else {
      EndAndCommit(s, run, task, input, row);
    }
    hide Conclude;
  }

  lemma ProjectTerminalKeeps(s: Ledger, run: Run, task: Task, input: TerminalInput, now: Time)
    requires Inv(s) && CurrentlyEnding(s, run, task, input)
    ensures Projected(s, run, task, input, now).Committed? && Kept(s, Projected(s, run, task, input, now).ledger)
    ensures Projected(s, run, task, input, now).ledger.runs == Ended(s, run, input).runs
    ensures RowIs(Projected(s, run, task, input, now).ledger, RowAfterEnd(s, run, task, input, now))
  {
    hide InvExcept, Evolves, Projected, Kept, Ended, RowIs, Ending, WakeAt;
    match run.outcome
    case Some(OutcomeWait) => ProjectWait(s, run, task, input, now);
    case Some(OutcomeFail) => ProjectFail(s, run, task, input, now);
    case Some(OutcomeSubmit) =>
      ProjectSubmit(s, run, task, input, now);
      SubmitRowStays(s, run, task, input, now);
    case None => ProjectFailure(s, run, task, input, now);
  }

  /** Terminal ingress never wedges: the fence and the transition table decide, nothing else. */
  lemma TerminalCommits(s: Ledger, id: RunId, input: TerminalInput, now: Time)
    requires Inv(s) && id in s.runs && s.runs[id].Live()
    requires TerminalFence(s.runs[id], input) && ValidRunTransition(s.runs[id].state, input.state) && input.state != RunActive
    ensures RecordTerminal(s, id, input, now).Committed? && Kept(s, RecordTerminal(s, id, input, now).ledger)
    ensures RecordTerminal(s, id, input, now).ledger.runs == s.runs[id := EndedRun(s.runs[id], input)]
    ensures s.runs[id].origin.task in s.tasks && s.tasks[s.runs[id].origin.task].currentRun == Some(id)
    ensures RowIs(RecordTerminal(s, id, input, now).ledger,
                  RowAfterEnd(s.(messages := Redelivered(s.messages, id, now)), s.runs[id], s.tasks[s.runs[id].origin.task], input, now))
  {
    hide InvExcept, Evolves, ProjectTerminal, TaskOk, Redelivered;
    RunAt(s, {}, id);
    var run := s.runs[id];
    var task := s.tasks[run.origin.task];
    TaskAt(s, {}, run.origin.task);
    var s0 := s.(messages := Redelivered(s.messages, id, now));
    RedeliveredKeeps(s, id, now);
    MessagesAloneEvolve(s, s0);
    RunAt(s0, {}, id);
    TaskAt(s0, {}, task.id);
    assert Terminated(s, run, input, now) == Ended(s0, run, input);
    hide NothingDeliveredTo, RunOk;
    if task.status == TaskCancelled {
      EndAndCommit(s0, run, task, input, task.(currentRun := None, version := task.version + 1));
    } else {
      GenerationIsCurrent(s, task.id);
      ProjectTerminalKeeps(s0, run, task, input, now);
    }
    EvolvesTransitive(s, s0, RecordTerminal(s, id, input, now).ledger);
  }

  lemma GenerationIsCurrent(s: Ledger, k: TaskId)
    requires Inv(s) && k in s.tasks && s.tasks[k].currentRun.Some? && s.tasks[k].status != TaskCancelled
    ensures s.tasks[k].currentRun.value in s.runs
            && s.runs[s.tasks[k].currentRun.value].origin.generation == s.tasks[k].generation
  {
    hide InvExcept, TaskFits, NamesFit, PairFits;
    TaskAt(s, {}, k);
  }

  lemma MessagesAloneEvolve(s: Ledger, s1: Ledger)
    requires s1 == s.(messages := s1.messages) && MessagesEvolve(s, s1)
    ensures Evolves(s, s1)
  {
    hide MessagesEvolve;
    OthersReflexive(s);
  }

  lemma TerminalKeeps(s: Ledger, id: RunId, input: TerminalInput, now: Time)
    requires Inv(s) && RecordTerminal(s, id, input, now).Committed?
    ensures Kept(s, RecordTerminal(s, id, input, now).ledger)
  {
    hide Inv, Evolves, ProjectTerminal, Terminated;
    if s.runs[id].Live() {
      TerminalCommits(s, id, input, now);
    } else {
      EvolvesReflexive(s);
    }
  }
}
