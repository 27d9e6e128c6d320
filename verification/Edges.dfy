/** Which edges of the task status machine the service takes. */
module Edges {
  import opened Model
  import opened Tables
  import opened MessageSteps
  import opened RunSteps
  import opened TaskSteps
  import opened GitSteps
  import opened ProjectSteps
  import opened System
  import opened Invariant
  import opened Evolution
  import opened SendProofs
  import opened Safety

  /** The status table, edge by edge: what every task may do, what only a result may do, and what only a
    conversation may do. */
  lemma TableIsExact(kind: TaskKind, from: TaskStatus, to: TaskStatus)
    ensures ValidTaskTransition(kind, from, to) <==>
              || (from, to) in {(TaskQueued, TaskRunning), (TaskQueued, TaskFailed), (TaskQueued, TaskCancelled),
                                (TaskRunning, TaskFinishing), (TaskRunning, TaskQueued), (TaskRunning, TaskFailed),
                                (TaskRunning, TaskCancelled), (TaskFinishing, TaskWaiting), (TaskFinishing, TaskQueued),
                                (TaskFinishing, TaskFailed), (TaskWaiting, TaskQueued), (TaskWaiting, TaskFailed),
                                (TaskWaiting, TaskCancelled), (TaskFailed, TaskQueued), (TaskFailed, TaskCancelled)}
              || (kind != TaskConversation
                  && (from, to) in {(TaskFinishing, TaskSubmitted), (TaskSubmitted, TaskQueued),
                                    (TaskSubmitted, TaskCompleted), (TaskSubmitted, TaskCancelled)})
              || (kind == TaskConversation && (from, to) == (TaskWaiting, TaskCompleted))
  {
  }

  /** The requests that may leave the table of fsm.go: the projection of a fatal advance fails a
    submitted task, and a human completes the work task that waits for them. */
  datatype Via = AnyRequest | FatalAdvance | HumanConfirms

  predicate BeyondTable(via: Via, was: Task, to: TaskStatus) {
    || (via.FatalAdvance? && was.status == TaskSubmitted && to == TaskFailed)
    || (via.HumanConfirms? && was.status == TaskWaiting && to == TaskCompleted
        && was.origin.kind == TaskWork && was.origin.assignee.None?)
  }

  predicate Edge(via: Via, was: Task, to: TaskStatus) {
    to == was.status || ValidTaskTransition(was.origin.kind, was.status, to) || BeyondTable(via, was, to)
  }

  function ViaOf(step: Step): Via {
    match step
    case Projections(StepProjectAdvanceFailure(_)) => FatalAdvance
    case Tasks(StepComplete(_)) => HumanConfirms
    case _ => AnyRequest
  }

  ghost predicate KeysOk(s: Ledger) {
    forall k :: k in s.tasks ==> s.tasks[k].id == k
  }

  /** Every task that was there takes one edge, or none. */
  ghost predicate EdgesOk(via: Via, s: Ledger, s1: Ledger) {
    forall k :: k in s.tasks ==>
      k in s1.tasks && s1.tasks[k].origin == s.tasks[k].origin && Edge(via, s.tasks[k], s1.tasks[k].status)
  }

  /** What messages do to tasks: some that waited are queued. */
  ghost predicate OnlyQueues(s: Ledger, s1: Ledger) {
    && KeysOk(s1)
    && forall k :: k in s.tasks ==>
         && k in s1.tasks && s1.tasks[k].origin == s.tasks[k].origin
         && (s1.tasks[k].status == s.tasks[k].status
             || (s.tasks[k].status == TaskWaiting && s1.tasks[k].status == TaskQueued))
  }

  lemma EdgeThenQueued(via: Via, s: Ledger, s1: Ledger, s2: Ledger)
    requires EdgesOk(via, s, s1) && OnlyQueues(s1, s2)
    ensures EdgesOk(via, s, s2)
  {
  }

  lemma QueuesCompose(a: Ledger, b: Ledger, c: Ledger)
    requires OnlyQueues(a, b) && OnlyQueues(b, c)
    ensures OnlyQueues(a, c)
  {
  }

  lemma SameTasks(via: Via, s: Ledger, s1: Ledger)
    requires s1.tasks == s.tasks
    ensures EdgesOk(via, s, s1)
    ensures KeysOk(s) ==> OnlyQueues(s, s1)
  {
  }

  lemma OneRow(via: Via, s: Ledger, row: Task, s1: Ledger)
    requires KeysOk(s) && row.id in s.tasks && row.origin == s.tasks[row.id].origin
    requires Edge(via, s.tasks[row.id], row.status)
    requires s1.tasks == s.tasks[row.id := row]
    ensures EdgesOk(via, s, s1) && KeysOk(s1)
  {
  }

  lemma NewRow(via: Via, s: Ledger, row: Task, s1: Ledger)
    requires KeysOk(s) && row.id !in s.tasks && s1.tasks == s.tasks[row.id := row]
    ensures EdgesOk(via, s, s1) && KeysOk(s1)
  {
  }

  // ---- messages ----

  /** A row that was waiting or queued is queued. */
  lemma RowQueues(s: Ledger, task: Task, at: Time, s1: Ledger)
    requires KeysOk(s) && task.id in s.tasks && s.tasks[task.id] == task
    requires task.status == TaskWaiting || task.status == TaskQueued
    requires s1.tasks == s.tasks[task.id := RequeuedRow(task, at)]
    ensures OnlyQueues(s, s1)
  {
  }

  lemma DisposeOneQueues(s: Ledger, task: Task, id: MessageId, now: Time)
    requires KeysOk(s) && DisposeOne(s, task, id, now).Committed?
    ensures OnlyQueues(s, DisposeOne(s, task, id, now).ledger)
  {
    hide OnlyQueues, EdgesOk;
    var s1 := DisposeOne(s, task, id, now).ledger;
    if s1.tasks == s.tasks {
      SameTasks(AnyRequest, s, s1);
    } else {
      var c := s.tasks[Conversation(s, task.origin.project, s.messages[id].recipient.agent).value];
      RowQueues(s, c, DeliveryAt(s.messages[id], now), s1);
    }
  }

  lemma {:induction false} DisposeAllQueues(s: Ledger, task: Task, ids: seq<MessageId>, now: Time)
    requires KeysOk(s) && DisposeAll(s, task, ids, now).Committed?
    ensures OnlyQueues(s, DisposeAll(s, task, ids, now).ledger)
    decreases |ids|
  {
    hide DisposeOne;
    if ids == [] {
      SameTasks(AnyRequest, s, s);
    } else {
      DisposeOneQueues(s, task, ids[0], now);
      var s1 := DisposeOne(s, task, ids[0], now).ledger;
      DisposeAllQueues(s1, task, ids[1..], now);
      QueuesCompose(s, s1, DisposeAll(s1, task, ids[1..], now).ledger);
    }
  }

  lemma DisposeQueues(s: Ledger, task: Task, now: Time)
    requires KeysOk(s) && Dispose(s, task, now).Committed?
    ensures OnlyQueues(s, Dispose(s, task, now).ledger)
  {
    hide DisposeAll;
    DisposeAllQueues(s, task, MessagesForTask(s, task.id), now);
  }

  lemma NotifyQueues(s: Ledger, child: Task, now: Time)
    requires KeysOk(s) && NotifyParent(s, child, now).Committed?
    ensures OnlyQueues(s, NotifyParent(s, child, now).ledger)
  {
    hide OnlyQueues, EdgesOk;
    var s1 := NotifyParent(s, child, now).ledger;
    if s1.tasks == s.tasks {
      SameTasks(AnyRequest, s, s1);
    } else {
      RowQueues(s, s.tasks[child.origin.parent.value], now, s1);
    }
  }

  lemma ConcludeQueues(s: Ledger, task: Task, now: Time)
    requires KeysOk(s) && Conclude(s, task, now).Committed?
    ensures OnlyQueues(s, Conclude(s, task, now).ledger)
  {
    hide Dispose, NotifyParent;
    DisposeQueues(s, task, now);
    var s1 := Dispose(s, task, now).ledger;
    NotifyQueues(s1, task, now);
    QueuesCompose(s, s1, NotifyParent(s1, task, now).ledger);
  }

  /** One row takes an edge, and the transaction then hands its messages on. */
  lemma RowThenConclude(via: Via, s: Ledger, row: Task, s1: Ledger, now: Time)
    requires KeysOk(s) && row.id in s.tasks && row.origin == s.tasks[row.id].origin
    requires Edge(via, s.tasks[row.id], row.status)
    requires s1.tasks == s.tasks[row.id := row] && Conclude(s1, row, now).Committed?
    ensures EdgesOk(via, s, Conclude(s1, row, now).ledger) && KeysOk(Conclude(s1, row, now).ledger)
    ensures row.status != TaskWaiting ==> Conclude(s1, row, now).ledger.tasks[row.id].status == row.status
  {
    hide Conclude;
    OneRow(via, s, row, s1);
    ConcludeQueues(s1, row, now);
    EdgeThenQueued(via, s, s1, Conclude(s1, row, now).ledger);
  }

  /** The task a message was sent to is woken, or not. */
  lemma DeliveryEdges(s: Ledger, target: Task, wake: bool, now: Time, s1: Ledger)
    requires KeysOk(s) && target.id in s.tasks && s.tasks[target.id] == target
    requires s1.tasks == WakeDelivery(s, target, wake, now).tasks
    ensures EdgesOk(AnyRequest, s, s1)
  {
    if wake && target.status == TaskWaiting {
      OneRow(AnyRequest, s, RequeuedRow(target, now + CONVERSATION_WAKE_MERGE_WINDOW), s1);
    } else {
      SameTasks(AnyRequest, s, s1);
    }
  }

  lemma SendEdges(s: Ledger, project: ProjectId, agent: AgentId, explicit: Option<TaskId>, wake: bool, now: Time)
    requires KeysOk(s) && s.nextId !in s.tasks && SendToAgent(s, project, agent, explicit, wake, now).Committed?
    ensures EdgesOk(AnyRequest, s, SendToAgent(s, project, agent, explicit, wake, now).ledger)
  {
    hide EdgesOk, WakeDelivery;
    var s1 := SendToAgent(s, project, agent, explicit, wake, now).ledger;
    if explicit.Some? && s.tasks[explicit.value].AcceptsDelivery() {
      DeliveryEdges(s, s.tasks[explicit.value], wake, now, s1);
    } else if Conversation(s, project, agent).Some? {
      DeliveryEdges(s, s.tasks[Conversation(s, project, agent).value], wake, now, s1);
    } else {
      NewRow(AnyRequest, s, NewConversation(s.nextId, project, agent, wake, now), s1);
    }
  }

  lemma RetryMessageEdges(s: Ledger, id: MessageId, now: Time)
    requires KeysOk(s) && RetryMessage(s, id, now).Committed?
    ensures EdgesOk(AnyRequest, s, RetryMessage(s, id, now).ledger)
  {
    hide EdgesOk;
    var s1 := RetryMessage(s, id, now).ledger;
    var task := s.tasks[s.messages[id].task];
    if s.messages[id].wake && task.status == TaskWaiting {
      OneRow(AnyRequest, s, RequeuedRow(task, now), s1);
    } else {
      SameTasks(AnyRequest, s, s1);
    }
  }

  lemma {:induction false} DeliverSameTasks(s: Ledger, run: Run, ids: seq<MessageId>, now: Time)
    requires DeliverEach(s, run, ids, now).Committed?
    ensures DeliverEach(s, run, ids, now).ledger.tasks == s.tasks
    decreases |ids|
  {
    if ids != [] {
      DeliverSameTasks(DeliverOne(s, run, ids[0], now).ledger, run, ids[1..], now);
    }
  }

  lemma {:induction false} AcknowledgeSameTasks(s: Ledger, project: ProjectId, agent: AgentId, ids: seq<MessageId>)
    requires Acknowledge(s, project, agent, ids).Committed?
    ensures Acknowledge(s, project, agent, ids).ledger.tasks == s.tasks
    decreases |ids|
  {
    if ids != [] {
      AcknowledgeSameTasks(AcknowledgeOne(s, project, agent, ids[0]).ledger, project, agent, ids[1..]);
    }
  }

  /** The keys of the task table are the IDs of its rows, and new rows get new keys. */
  ghost predicate Keyed(s: Ledger) {
    KeysOk(s) && s.nextId !in s.tasks
  }

  lemma GoodIsKeyed(s: Ledger)
    requires Inv(s)
    ensures Keyed(s)
  {
    hide InvExcept;
    FreshId(s, {});
    forall k | k in s.tasks
      ensures s.tasks[k].id == k
    {
      TaskAt(s, {}, k);
    }
  }

  lemma MessageEdges(s: Ledger, step: MessageStep, now: Time)
    requires Keyed(s) && AttemptMessages(s, step, now).Committed?
    ensures EdgesOk(AnyRequest, s, AttemptMessages(s, step, now).ledger)
  {
    hide EdgesOk, SendToAgent, DeliverEach, Acknowledge, RetryMessage;
    var s1 := AttemptMessages(s, step, now).ledger;
    match step
    case StepSend(project, agent, explicit, wake) => SendEdges(s, project, agent, explicit, wake, now);
    case StepDeliver(run, ids) =>
      DeliverSameTasks(s, s.runs[run], ids, now);
      SameTasks(AnyRequest, s, s1);
    case StepAcknowledge(project, agent, ids) =>
      AcknowledgeSameTasks(s, project, agent, ids);
      SameTasks(AnyRequest, s, s1);
    case StepRetryMessage(message) => RetryMessageEdges(s, message, now);
  }

  // ---- runs ----

  lemma TerminalEdges(s: Ledger, id: RunId, input: TerminalInput, now: Time)
    requires KeysOk(s) && RecordTerminal(s, id, input, now).Committed?
    ensures EdgesOk(AnyRequest, s, RecordTerminal(s, id, input, now).ledger)
  {
    hide WakeAt, TerminalFence, Redelivered;
    var run := s.runs[id];
    if run.Live() {
      var task := s.tasks[run.origin.task];
      var s1 := Terminated(s, run, input, now);
      if task.currentRun == Some(id) && task.status != TaskCancelled && task.generation == run.origin.generation {
        ProjectionEdges(s1, task, s1.runs[id], WakeAt(s1, task.id), now);
      }
    }
    hide ProjectTerminal;
  }

  lemma ProjectionEdges(s: Ledger, task: Task, run: Run, wake: Option<Time>, now: Time)
    requires KeysOk(s) && task.id in s.tasks && s.tasks[task.id] == task
    requires ProjectTerminal(s, task, run, wake, now).Committed?
    ensures EdgesOk(AnyRequest, s, ProjectTerminal(s, task, run, wake, now).ledger)
  {
    hide Conclude, EdgesOk;
    var s1 := ProjectTerminal(s, task, run, wake, now).ledger;
    match run.outcome
    case Some(OutcomeFail) =>
      var row := task.(status := TaskFailed, currentRun := None, pending := None, version := task.version + 1);
      RowThenConclude(AnyRequest, s, row, PutTask(s, row), now);
    case None =>
      var row := RuntimeFailed(task, run.state, now);
      if row.status == TaskFailed {
        RowThenConclude(AnyRequest, s, row, PutTask(s, row), now);
      } else {
        OneRow(AnyRequest, s, row, s1);
      }
    case Some(OutcomeWait) => OneRow(AnyRequest, s, s1.tasks[task.id], s1);
    case Some(OutcomeSubmit) => SameTasks(AnyRequest, s, s1);
  }

  lemma ClaimEdges(s: Ledger, id: TaskId, now: Time)
    requires KeysOk(s) && Claim(s, id, now).Committed?
    ensures EdgesOk(AnyRequest, s, Claim(s, id, now).ledger)
  {
    hide EdgesOk, Occupancy, LiveRuns, NewRun;
    var task := s.tasks[id];
    var s1 := Claim(s, id, now).ledger;
    OneRow(AnyRequest, s, s1.tasks[id], s1);
  }

  lemma ActivateEdges(s: Ledger, id: RunId, key: RuntimeKey)
    requires KeysOk(s) && Activate(s, id, key).Committed?
    ensures EdgesOk(AnyRequest, s, Activate(s, id, key).ledger)
  {
    hide EdgesOk, RuntimeFactFence;
    var s1 := Activate(s, id, key).ledger;
    var k := s.runs[id].origin.task;
    if s1.tasks == s.tasks {
      SameTasks(AnyRequest, s, s1);
    } else {
      OneRow(AnyRequest, s, s1.tasks[k], s1);
    }
  }

  lemma OutcomeEdges(s: Ledger, id: RunId, outcome: TaskOutcome, seenTask: Task, seenRun: Run, head: Commits.Commit)
    requires KeysOk(s) && ApplyOutcome(s, id, outcome, seenTask, seenRun, head).Committed?
    ensures EdgesOk(AnyRequest, s, ApplyOutcome(s, id, outcome, seenTask, seenRun, head).ledger)
  {
    hide EdgesOk;
    var s1 := ApplyOutcome(s, id, outcome, seenTask, seenRun, head).ledger;
    OneRow(AnyRequest, s, s1.tasks[s.runs[id].origin.task], s1);
  }

  /** The other facts about a run leave the task table alone. */
  lemma RunFactEdges(s: Ledger, step: RunStep, now: Time)
    requires AttemptRuns(s, step, now).Committed?
    requires step.StepBeginLaunch? || step.StepContainerCreated? || step.StepStartIssued? || step.StepSession?
             || step.StepHeartbeat?
             || step.StepCleanup? || step.StepRequestStop?
    ensures AttemptRuns(s, step, now).ledger.tasks == s.tasks
  {
    hide Claim, Activate, ApplyOutcome, RecordTerminal, RuntimeFactFence;
  }

  lemma RunEdges(s: Ledger, step: RunStep, now: Time)
    requires Keyed(s) && AttemptRuns(s, step, now).Committed?
    ensures EdgesOk(AnyRequest, s, AttemptRuns(s, step, now).ledger)
  {
    hide EdgesOk, Claim, BeginLaunch, RecordContainerCreated, RecordStartIssued, Activate, RecordSession,
         RecordHeartbeat, RecordCleanup, RequestStop, ApplyOutcome, RecordTerminal;
    match step
    case StepClaim(task) => ClaimEdges(s, task, now);
    case StepActivate(run, key) => ActivateEdges(s, run, key);
    case StepOutcome(run, outcome, seenTask, seenRun, head) => OutcomeEdges(s, run, outcome, seenTask, seenRun, head);
    case StepTerminal(run, input) => TerminalEdges(s, run, input, now);
    case _ =>
      RunFactEdges(s, step, now);
      SameTasks(AnyRequest, s, AttemptRuns(s, step, now).ledger);
  }

  // ---- operator actions ----

  lemma ReleaseEdges(s: Ledger, integration: Task)
    requires KeysOk(s) && integration.id in s.tasks && ReleaseSource(s, integration).Committed?
    ensures var s1 := ReleaseSource(s, integration).ledger;
            EdgesOk(AnyRequest, s, s1) && KeysOk(s1) && integration.id in s1.tasks
  {
    hide IntegrationSourceFence;
    var s1 := ReleaseSource(s, integration).ledger;
    if s1.tasks == s.tasks {
      SameTasks(AnyRequest, s, s1);
    } else {
      var source := s.tasks[integration.origin.source.value.task];
      hide EdgesOk, ReleaseSource;
      OneRow(AnyRequest, s, source.(link := None, accepted := None, version := source.version + 1), s1);
    }
  }

  lemma CancelEdges(s: Ledger, id: TaskId, reason: string, now: Time)
    requires KeysOk(s) && CancelTask(s, id, reason, now).Committed?
    ensures EdgesOk(AnyRequest, s, CancelTask(s, id, reason, now).ledger)
  {
    hide EdgesOk, Conclude, ReleaseSource, StopCurrentRun, CancelledRow, OnlyQueues, ValidTaskTransition;
    var task := s.tasks[id];
    ReleaseEdges(s, task);
    var s1 := ReleaseSource(s, task).ledger;
    StopSameTasks(s1, task, reason);
    var s2 := StopCurrentRun(s1, task, reason).ledger;
    CancelledRowIs(s2, task);
    var row := CancelledRow(s2, task);
    OneRowAfter(AnyRequest, s, s1, row);
    var s3 := PutTask(s2, row);
    assert s3.tasks == PutTask(s1, row).tasks;
    SameTables(AnyRequest, s, PutTask(s1, row), s3);
    ConcludeQueues(s3, row, now);
    EdgeThenQueued(AnyRequest, s, s3, Conclude(s3, row, now).ledger);
  }

  lemma StopSameTasks(s: Ledger, task: Task, reason: string)
    requires StopCurrentRun(s, task, reason).Committed?
    ensures StopCurrentRun(s, task, reason).ledger.tasks == s.tasks
  {
  }

  lemma CancelledRowIs(s: Ledger, task: Task)
    ensures var row := CancelledRow(s, task);
            row.id == task.id && row.origin == task.origin && row.status == TaskCancelled
  {
  }

  /** Edges are about the task table only. */
  lemma SameTables(via: Via, s: Ledger, a: Ledger, b: Ledger)
    requires EdgesOk(via, s, a) && KeysOk(a) && b.tasks == a.tasks
    ensures EdgesOk(via, s, b) && KeysOk(b)
  {
  }

  /** A row that takes its edge after others took theirs, its own untouched so far. */
  lemma OneRowAfter(via: Via, s: Ledger, s1: Ledger, row: Task)
    requires EdgesOk(via, s, s1) && KeysOk(s1) && row.id in s.tasks && row.origin == s.tasks[row.id].origin
    requires Edge(via, s.tasks[row.id], row.status)
    ensures EdgesOk(via, s, PutTask(s1, row)) && KeysOk(PutTask(s1, row))
  {
  }

  lemma CreateEdges(s: Ledger, step: TaskStep, now: Time)
    requires Keyed(s) && step.StepCreateTask? && AttemptTasks(s, step, now).Committed?
    ensures EdgesOk(AnyRequest, s, AttemptTasks(s, step, now).ledger)
  {
    hide EdgesOk, Authenticated, UsableSource, WakeTask, RetryTask, ReworkTask, CancelTask, CompleteTask,
         CloseConversation, ReleaseSourceReference;
    var s1 := AttemptTasks(s, step, now).ledger;
    NewRow(AnyRequest, s, s1.tasks[s.nextId], s1);
  }

  /** Wake, retry, rework, close and release rewrite one row at most. */
  lemma ActionEdges(s: Ledger, step: TaskStep, id: TaskId, now: Time)
    requires KeysOk(s) && AttemptTasks(s, step, now).Committed?
    requires step == StepWake(id) || step == StepRetry(id) || step == StepRework(id) || step == StepClose(id)
             || step == StepReleaseSourceRef(id)
    ensures EdgesOk(AnyRequest, s, AttemptTasks(s, step, now).ledger)
  {
    hide EdgesOk, CreateTask, CancelTask, CompleteTask, Reenabled, ClosedMessages;
    var s1 := AttemptTasks(s, step, now).ledger;
    OneRow(AnyRequest, s, s1.tasks[id], s1);
  }

  lemma TaskEdges(s: Ledger, step: TaskStep, now: Time)
    requires Inv(s) && Keyed(s) && AttemptTasks(s, step, now).Committed?
    ensures EdgesOk(ViaOf(Tasks(step)), s, AttemptTasks(s, step, now).ledger)
  {
    hide Inv, EdgesOk, CreateTask, WakeTask, RetryTask, ReworkTask, CancelTask, CompleteTask, CloseConversation,
         ReleaseSourceReference;
    match step
    case StepCreateTask(_, _, _, _, _, _, _, _, _) => CreateEdges(s, step, now);
    case StepWake(task) => ActionEdges(s, step, task, now);
    case StepRetry(task) => ActionEdges(s, step, task, now);
    case StepRework(task) => ActionEdges(s, step, task, now);
    case StepCancel(task, reason) => CancelEdges(s, task, reason, now);
    case StepComplete(task) => CompleteEdges(s, task, now);
    case StepClose(task) => ActionEdges(s, step, task, now);
    case StepReleaseSourceRef(task) => ActionEdges(s, step, task, now);
  }

  lemma CompleteEdges(s: Ledger, id: TaskId, now: Time)
    requires Inv(s) && KeysOk(s) && CompleteTask(s, id, now).Committed?
    ensures EdgesOk(HumanConfirms, s, CompleteTask(s, id, now).ledger)
  {
    hide InvExcept, NotifyParent, CurrentRunFits, NamesFit, PairFits;
    TaskAt(s, {}, id);
    var task := s.tasks[id];
    var row := task.(status := TaskCompleted, result := None, version := task.version + 1);
    OneRow(HumanConfirms, s, row, PutTask(s, row));
    NotifyQueues(PutTask(s, row), row, now);
    EdgeThenQueued(HumanConfirms, s, PutTask(s, row), NotifyParent(PutTask(s, row), row, now).ledger);
  }

  // ---- Git ----

  /** Only work and integration tasks are ever submitted, or wait for a capture. */
  lemma ResultsAreNoConversations(s: Ledger, k: TaskId)
    requires Inv(s) && k in s.tasks && (s.tasks[k].status == TaskSubmitted || s.tasks[k].pending.Some?)
    ensures s.tasks[k].origin.kind != TaskConversation
  {
    hide InvExcept, CurrentRunFits, NamesFit, PairFits, ResultFits;
    TaskAt(s, {}, k);
  }

  lemma CaptureEdges(s: Ledger, fact: GitFact, canonical: Commits.Commit, now: Time)
    requires Inv(s) && KeysOk(s) && FinalizeCapture(s, fact, canonical, now).Committed?
    ensures EdgesOk(AnyRequest, s, FinalizeCapture(s, fact, canonical, now).ledger)
  {
    hide Inv, Conclude, Dispose, IntegrationSourceFence;
    var task := s.tasks[fact.intent.id];
    ResultsAreNoConversations(s, fact.intent.id);
    var row := SubmittedRow(task, s.runs[fact.run].id, fact.head);
    if task.origin.kind != TaskIntegration {
      RowThenConclude(AnyRequest, s, row, PutTask(s, row), now);
    } else {
      var advancing := IntegrationSubmittedRow(row, s.runs[fact.run].id, fact.head, s.nextId, canonical);
      var s1 := PutTask(s, advancing).(nextId := s.nextId + 1);
      OneRow(AnyRequest, s, advancing, s1);
      DisposeQueues(s1, advancing, now);
      EdgeThenQueued(AnyRequest, s, s1, Dispose(s1, advancing, now).ledger);
    }
  }

  lemma CaptureFailureEdges(s: Ledger, fact: GitFact, now: Time)
    requires KeysOk(s) && ProjectCaptureFailure(s, fact, now).Committed?
    ensures EdgesOk(AnyRequest, s, ProjectCaptureFailure(s, fact, now).ledger)
  {
    hide Conclude;
    var task := s.tasks[fact.intent.id];
    if SameCaptureFence(task, s.runs[fact.run], fact.intent) {
      var row := CaptureFailedRow(task, fact.fatal, now);
      var s1 := PutTask(s, row);
      var s2 := if fact.fatal then FailProject(s1, task.origin.project) else s1;
      if row.status == TaskFailed {
        RowThenConclude(AnyRequest, s, row, s2, now);
      }
    }
  }

  lemma SuccessEdges(s: Ledger, fact: GitFact, now: Time)
    requires Inv(s) && KeysOk(s) && FinalizeSuccess(s, fact, now).Committed?
    ensures EdgesOk(AnyRequest, s, FinalizeSuccess(s, fact, now).ledger)
  {
    hide Inv, Conclude, Dispose, NotifyParent;
    var task := s.tasks[fact.intent.id];
    ResultsAreNoConversations(s, fact.intent.id);
    var s1 := CacheCanonical(s, task.origin.project, fact.actual);
    SourceEdges(s, s1, task, fact.actual, now);
    var s2 := CompleteSource(s1, task, fact.actual, now).ledger;
    hide CompleteSource, CacheCanonical;
    var row := CompletedRow(task, fact.actual).(pending := None);
    OneRowAfter(AnyRequest, s, s2, row);
    var s3 := PutTask(s2, row);
    DisposeQueues(s3, row, now);
    var s4 := Dispose(s3, row, now).ledger;
    EdgeThenQueued(AnyRequest, s, s3, s4);
    if task.origin.kind != TaskIntegration {
      NotifyQueues(s4, row, now);
      EdgeThenQueued(AnyRequest, s, s4, NotifyParent(s4, row, now).ledger);
    }
  }

  lemma SourceEdges(s: Ledger, s1: Ledger, task: Task, actual: Commits.Commit, now: Time)
    requires Inv(s) && KeysOk(s) && s1.tasks == s.tasks && CompleteSource(s1, task, actual, now).Committed?
    ensures EdgesOk(AnyRequest, s, CompleteSource(s1, task, actual, now).ledger)
    ensures KeysOk(CompleteSource(s1, task, actual, now).ledger)
  {
    hide Inv, Conclude;
    if task.origin.kind == TaskIntegration {
      var source := s.tasks[task.origin.source.value.task];
      ResultsAreNoConversations(s, task.origin.source.value.task);
      var row := CompletedRow(source, actual);
      RowThenConclude(AnyRequest, s, row, PutTask(s1, row), now);
    }
  }

  lemma RestartEdges(s: Ledger, task: Task, now: Time)
    requires KeysOk(s) && task.id in s.tasks && s.tasks[task.id] == task && RestartIntegration(s, task, now).Committed?
    requires task.status == TaskSubmitted && task.origin.kind != TaskConversation
    ensures EdgesOk(AnyRequest, s, RestartIntegration(s, task, now).ledger)
  {
    hide EdgesOk, IntegrationSourceFence;
    var s1 := RestartIntegration(s, task, now).ledger;
    OneRow(AnyRequest, s, s1.tasks[task.id], s1);
  }

  lemma OpenEdges(s: Ledger, task: Task, actual: Commits.Commit, now: Time)
    requires Keyed(s) && task.id in s.tasks && s.tasks[task.id] == task
    requires OpenIntegration(s, task, actual, now).Committed?
    ensures EdgesOk(AnyRequest, s, OpenIntegration(s, task, actual, now).ledger)
  {
    hide EdgesOk;
    var linked := LinkedRow(task, s.nextId);
    var s1 := PutTask(s, linked);
    OneRow(AnyRequest, s, linked, s1);
    var s2 := OpenIntegration(s, task, actual, now).ledger;
    assert s2.tasks == s1.tasks[s.nextId := s2.tasks[s.nextId]];
    NewAfter(AnyRequest, s, s1, s.nextId, s2);
  }

  lemma NewAfter(via: Via, s: Ledger, s1: Ledger, k: TaskId, s2: Ledger)
    requires EdgesOk(via, s, s1) && k !in s.tasks && k in s2.tasks && s2.tasks == s1.tasks[k := s2.tasks[k]]
    ensures EdgesOk(via, s, s2)
  {
  }

  lemma StaleEdges(s: Ledger, fact: GitFact, now: Time)
    requires Inv(s) && Keyed(s) && FinalizeStale(s, fact, now).Committed?
    ensures EdgesOk(AnyRequest, s, FinalizeStale(s, fact, now).ledger)
  {
    hide Inv, RestartIntegration, OpenIntegration;
    ResultsAreNoConversations(s, fact.intent.id);
    var task := s.tasks[fact.intent.id];
    var s1 := CacheCanonical(s, task.origin.project, fact.actual);
    if task.origin.kind == TaskIntegration {
      RestartEdges(s1, task, now);
    } else {
      OpenEdges(s1, task, fact.actual, now);
    }
  }

  lemma AdvanceFailureEdges(s: Ledger, fact: GitFact, now: Time)
    requires KeysOk(s) && ProjectAdvanceFailure(s, fact, now).Committed?
    ensures EdgesOk(FatalAdvance, s, ProjectAdvanceFailure(s, fact, now).ledger)
  {
    hide Conclude;
    var task := s.tasks[fact.intent.id];
    if SameAdvanceFence(task, fact.intent) {
      var row := task.(status := TaskFailed, pending := None, version := task.version + 1);
      RowThenConclude(FatalAdvance, s, row, FailProject(PutTask(s, row), task.origin.project), now);
    }
  }

  lemma AcceptEdges(s: Ledger, step: ProjectionStep, now: Time)
    requires KeysOk(s) && step.StepAccept? && AttemptProjections(s, step, now).Committed?
    ensures EdgesOk(AnyRequest, s, AttemptProjections(s, step, now).ledger)
  {
    hide EdgesOk, FinalizeCapture, ProjectCaptureFailure, FinalizeSuccess, FinalizeStale, ProjectAdvanceFailure;
    var s1 := AttemptProjections(s, step, now).ledger;
    OneRow(AnyRequest, s, s1.tasks[step.task], s1);
  }

  lemma ProjectionStepEdges(s: Ledger, step: ProjectionStep, now: Time)
    requires Inv(s) && Keyed(s) && AttemptProjections(s, step, now).Committed?
    ensures EdgesOk(ViaOf(Projections(step)), s, AttemptProjections(s, step, now).ledger)
  {
    hide Inv, EdgesOk, FinalizeCapture, ProjectCaptureFailure, RequestAccept, FinalizeSuccess, FinalizeStale,
         ProjectAdvanceFailure;
    match step
    case StepFinalizeCapture(fact, canonical) => CaptureEdges(s, fact, canonical, now);
    case StepProjectCaptureFailure(fact) => CaptureFailureEdges(s, fact, now);
    case StepAccept(_, _, _, _, _, _) => AcceptEdges(s, step, now);
    case StepFinalizeSuccess(fact) => SuccessEdges(s, fact, now);
    case StepFinalizeStale(fact) => StaleEdges(s, fact, now);
    case StepProjectAdvanceFailure(fact) => AdvanceFailureEdges(s, fact, now);
  }

  /** The first edge outside the table is really taken. */
  lemma FatalAdvanceLeavesTable(s: Ledger, fact: GitFact, now: Time)
    requires KeysOk(s) && ProjectAdvanceFailure(s, fact, now).Committed?
    requires SameAdvanceFence(s.tasks[fact.intent.id], fact.intent)
    ensures var was := s.tasks[fact.intent.id];
            var s1 := ProjectAdvanceFailure(s, fact, now).ledger;
            fact.intent.id in s1.tasks
            && var to := s1.tasks[fact.intent.id].status;
            BeyondTable(FatalAdvance, was, to) && !ValidTaskTransition(was.origin.kind, was.status, to)
  {
    hide Conclude;
    var task := s.tasks[fact.intent.id];
    var row := task.(status := TaskFailed, pending := None, version := task.version + 1);
    RowThenConclude(FatalAdvance, s, row, FailProject(PutTask(s, row), task.origin.project), now);
  }

  /** So is the second. */
  lemma ConfirmationLeavesTable(s: Ledger, id: TaskId, now: Time)
    requires Inv(s) && CompleteTask(s, id, now).Committed?
    ensures var was := s.tasks[id];
            var s1 := CompleteTask(s, id, now).ledger;
            id in s1.tasks
            && var to := s1.tasks[id].status;
            BeyondTable(HumanConfirms, was, to) && !ValidTaskTransition(was.origin.kind, was.status, to)
  {
    hide InvExcept, NotifyParent, CurrentRunFits, NamesFit, PairFits;
    GoodIsKeyed(s);
    TaskAt(s, {}, id);
    var task := s.tasks[id];
    var row := task.(status := TaskCompleted, result := None, version := task.version + 1);
    NotifyQueues(PutTask(s, row), row, now);
  }

  /** Agents, projects and Git effects leave the task table alone. */
  lemma RegistrySameTasks(s: Ledger, step: RegistryStep, now: Time)
    requires AttemptRegistry(s, step, now).Committed?
    ensures AttemptRegistry(s, step, now).ledger.tasks == s.tasks
  {
    hide AgentIsNeeded, ProjectIsNeeded, ValidAgentTransition, ValidProjectTransition;
    match step
    case StepAddAgent =>
    case StepSetAgentStatus(_, _) =>
    case StepArchiveAgent(_) =>
    case StepAddProject(_, _) =>
    case StepFinishProject(_, _, _) =>
    case StepRepairProject(_) =>
    case StepFinishVerification(_, _, _) =>
    case StepArchiveProject(_) =>
  }

  lemma GitSameTasks(s: Ledger, step: GitStep, now: Time)
    requires AttemptGit(s, step, now).Committed?
    ensures AttemptGit(s, step, now).ledger.tasks == s.tasks
  {
    hide CapturedAncestry, AdvanceEffect, CaptureIntent, AdvanceIntent, CanReadIntent;
    match step
    case StepPromoteRepository(_) =>
    case StepReadIntent(_) =>
    case StepWriteTaskRef(_) =>
    case StepReportCapture(_) =>
    case StepReportCaptureFailure(_, _) =>
    case StepAdvanceCanonical(_, _, _, _) =>
    case StepReportAdvanceFailure(_) =>
    case StepFastForward(_, _) =>
    case StepDropTaskRef(_) =>
  }

  lemma StepEdges(s: Ledger, step: Step, now: Time)
    requires Inv(s) && Attempt(s, step, now).Committed?
    ensures EdgesOk(ViaOf(step), s, Attempt(s, step, now).ledger)
  {
    hide Inv, EdgesOk, Keyed, KeysOk, AttemptRegistry, AttemptRuns, AttemptMessages, AttemptTasks, AttemptGit,
         AttemptProjections;
    GoodIsKeyed(s);
    match step
    case Registry(inner) =>
      RegistrySameTasks(s, inner, now);
      SameTasks(AnyRequest, s, Attempt(s, step, now).ledger);
    case Runs(inner) => RunEdges(s, inner, now);
    case Messages(inner) => MessageEdges(s, inner, now);
    case Tasks(inner) => TaskEdges(s, inner, now);
    case Git(inner) =>
      GitSameTasks(s, inner, now);
      SameTasks(AnyRequest, s, Attempt(s, step, now).ledger);
    case Projections(inner) => ProjectionStepEdges(s, inner, now);
  }

  /** In every reachable state every request moves every task along an edge of the status table or
    not at all; only the projection of a fatal advance and the confirmation of a human take the
    two edges outside it. */
  lemma EveryEdgeIsKnown(s: Ledger, event: Event, k: TaskId)
    requires Reachable(s) && k in s.tasks
    ensures k in Next(s, event).tasks && Edge(ViaOf(event.step), s.tasks[k], Next(s, event).tasks[k].status)
  {
    hide Inv, Reachable, Attempt, Acknowledge, ValidTaskTransition;
    ReachableHolds(s);
    if Bundled(s, event.acknowledging, event.step, event.at).Committed? {
      if event.acknowledging.None? {
        StepEdges(s, event.step, event.at);
      } else {
        var a := event.acknowledging.value;
        AcknowledgeKeeps(s, a.project, a.agent, a.ids);
        AcknowledgeSameTasks(s, a.project, a.agent, a.ids);
        StepEdges(Acknowledge(s, a.project, a.agent, a.ids).ledger, event.step, event.at);
      }
    }
  }
}
