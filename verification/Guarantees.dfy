/** What the service promises in every state any history leads to. */
module Guarantees {
  import opened Commits
  import opened Model
  import opened Tables
  import opened MessageSteps
  import opened RunSteps
  import opened TaskSteps
  import opened GitSteps
  import opened System
  import opened Invariant
  import opened RowChanges
  import opened Evolution
  import opened MessageProofs
  import opened RunProofs
  import opened TerminalEffects
  import opened MessageEffects
  import opened TaskProofs
  import opened GitProofs
  import opened AdvanceProofs
  import opened Safety

  // ---- messages ----

  /** No lost wake-up: a message that owes its task a run never sits on a task that waits, and
    no unresolved message is stranded on a task that takes no more deliveries. */
  lemma NoLostWakeUp(s: Ledger, m: MessageId)
    requires Reachable(s) && m in s.messages && s.messages[m].Unresolved()
    ensures var message := s.messages[m];
            message.task in s.tasks && s.tasks[message.task].AcceptsDelivery()
            && s.tasks[message.task].origin.assignee == Some(message.recipient.agent)
            && (message.OwesWake() ==> s.tasks[message.task].status != TaskWaiting)
    ensures var message := s.messages[m];
            && message.task in s.tasks && TakesDeliveries(s.tasks[message.task].status)
            && (message.wake && (message.state == MessageDelivered || !BudgetSpent(message)) ==>
                  s.tasks[message.task].status != TaskWaiting)
  {
    hide InvExcept;
    ReachableHolds(s);
    MessageAt(s, {}, m);
  }

  /** Which messages are still unresolved: those an agent has neither acknowledged nor lost. */
  lemma UnresolvedInColumns(m: Message)
    ensures m.Unresolved() <==>
              m.recipient.ToAgent? && m.state != MessageAcknowledged && m.state != MessageCancelled
    ensures m.Exhausted() <==> m.max > 0 && m.count >= m.max
  {
  }

  /** Delivery accounting: the budget holds, a pending message lacks a delivery time exactly when
    it is exhausted, and a delivered one names a live run of its recipient. */
  lemma DeliveryIsAccounted(s: Ledger, m: MessageId)
    requires Reachable(s) && m in s.messages && s.messages[m].Unresolved()
    ensures var message := s.messages[m];
            && (message.max > 0 ==> message.count <= message.max)
            && (message.state == MessagePending ==> (message.nextAt.None? <==> message.Exhausted()))
            && (message.state == MessageDelivered ==>
                  message.deliveredRun.Some? && message.deliveredRun.value in s.runs
                  && s.runs[message.deliveredRun.value].Live()
                  && s.runs[message.deliveredRun.value].origin.agent == message.recipient.agent)
    ensures var message := s.messages[m];
            message.state == MessagePending ==> (message.nextAt == None <==> message.max > 0 && message.count >= message.max)
  {
    hide InvExcept;
    ReachableHolds(s);
    MessageAt(s, {}, m);
  }

  // ---- results ----

  /** Completed means integrated: the captured head of a completed task is in the canonical ref,
    and stays in it whatever happens afterwards. Its row stays as it was, except that the ref of
    its source may be released, once. A source that was completed through its integration task is
    a completed task like any other. */
  lemma CompletedIsIntegrated(s: Ledger, k: TaskId, events: seq<Event>)
    requires Reachable(s) && k in s.tasks && s.tasks[k].status == TaskCompleted && s.tasks[k].result.Some?
    ensures var later := RunAll(s, events); var project := s.tasks[k].origin.project;
            && k in later.tasks
            && (later.tasks[k] == s.tasks[k]
                || (!s.tasks[k].sourceReleased && s.tasks[k].origin.source.Some?
                    && later.tasks[k] == s.tasks[k].(sourceReleased := true, version := later.tasks[k].version)))
            && project in later.canonical && IsAncestor(s.tasks[k].result.value.head, later.canonical[project])
  {
    hide InvExcept, RunAll;
    ReachableHolds(s);
    TaskAt(s, {}, k);
    var task := s.tasks[k];
    RunsKeep(s, events);
    var later := RunAll(s, events);
    AncestorTransitive(task.result.value.head, task.finalCanonical.value, s.canonical[task.origin.project]);
    AncestorTransitive(task.result.value.head, s.canonical[task.origin.project], later.canonical[task.origin.project]);
    hide IsAncestor;
  }

  /** Source and integration stay paired, seen from the integration. */
  lemma IntegrationIsPaired(s: Ledger, k: TaskId)
    requires Reachable(s) && k in s.tasks && s.tasks[k].origin.kind == TaskIntegration && s.tasks[k].Open()
    ensures s.tasks[k].origin.source.Some? && s.tasks[k].origin.source.value.task in s.tasks
            && IntegrationSourceFence(s.tasks[s.tasks[k].origin.source.value.task], s.tasks[k])
    ensures s.tasks[k].origin.source.Some? && s.tasks[k].origin.source.value.task in s.tasks
            && var source := s.tasks[s.tasks[k].origin.source.value.task];
            && source.status == TaskSubmitted && source.link == Some(k) && source.version == s.tasks[k].origin.acceptVersion
            && source.result == Some(s.tasks[k].origin.source.value.result)
            && source.accepted.Some? && source.accepted == s.tasks[k].origin.assignee
            && source.origin.project == s.tasks[k].origin.project && source.pending == None
  {
    hide InvExcept;
    ReachableHolds(s);
    TaskAt(s, {}, k);
    TaskAt(s, {}, s.tasks[k].origin.source.value.task);
    hide CurrentRunFits, CapturedAncestry;
  }

  /** The same, seen from the source: its link is its only open integration. */
  lemma SourceIsPaired(s: Ledger, k: TaskId, i: TaskId)
    requires Reachable(s) && k in s.tasks && s.tasks[k].status == TaskSubmitted && s.tasks[k].link.Some?
    ensures IsOpenIntegrationOf(s, s.tasks[k].link.value, k)
            && IntegrationSourceFence(s.tasks[k], s.tasks[s.tasks[k].link.value])
    ensures IsOpenIntegrationOf(s, i, k) ==> s.tasks[k].link == Some(i)
  {
    hide InvExcept;
    ReachableHolds(s);
    TaskAt(s, {}, k);
    TaskAt(s, {}, s.tasks[k].link.value);
    IntegrationIsPaired(s, s.tasks[k].link.value);
    if IsOpenIntegrationOf(s, i, k) {
      TaskAt(s, {}, i);
      IntegrationIsPaired(s, i);
    }
    hide TaskOk;
  }

  /** A result is held under the ref of its task and run, and so is the copy its integration works on. */
  lemma RefsAreOwn(s: Ledger, k: TaskId)
    requires Reachable(s) && k in s.tasks
    ensures s.tasks[k].result.Some? ==> s.tasks[k].result.value.ref == TaskRef(k, s.tasks[k].result.value.run)
    ensures var source := s.tasks[k].origin.source;
            source.Some? ==> source.value.result.ref == TaskRef(source.value.task, source.value.result.run)
  {
    hide InvExcept, CapturedAncestry;
    ReachableHolds(s);
    TaskAt(s, {}, k);
  }

  /** The unique index on open integrations never rejects a write: no two of them work on one ref. */
  lemma SourceRefsDiffer(s: Ledger, a: TaskId, b: TaskId)
    requires Reachable(s) && a in s.tasks && b in s.tasks
    requires s.tasks[a].origin.kind == TaskIntegration && s.tasks[a].Open() && s.tasks[a].origin.source.Some?
    requires s.tasks[b].origin.kind == TaskIntegration && s.tasks[b].Open() && s.tasks[b].origin.source.Some?
    requires s.tasks[a].origin.source.value.result.ref == s.tasks[b].origin.source.value.result.ref
    ensures a == b
  {
    hide Reachable;
    RefsAreOwn(s, a);
    RefsAreOwn(s, b);
    IntegrationIsPaired(s, a);
    IntegrationIsPaired(s, b);
    ReachableHolds(s);
    hide InvExcept;
    TaskAt(s, {}, a);
    TaskAt(s, {}, b);
  }

  // ---- runs ----

  /** A live run is exactly the current run of its task, and the only live one of its agent. */
  lemma LiveRunIsCurrent(s: Ledger, a: RunId, b: RunId)
    requires Reachable(s) && a in s.runs && s.runs[a].Live()
    ensures s.runs[a].origin.task in s.tasks && s.tasks[s.runs[a].origin.task].currentRun == Some(a)
    ensures b in s.runs && s.runs[b].Live() && s.runs[b].origin.task == s.runs[a].origin.task ==> a == b
    ensures b in s.runs && s.runs[b].Live() && s.runs[b].origin.agent == s.runs[a].origin.agent ==> a == b
    ensures |LiveRuns(s)| <= s.maxRuns
  {
    ReachableHolds(s);
    RunAt(s, {}, a);
    if b in s.runs {
      RunAt(s, {}, b);
    }
    hide TasksOk, RunsOk, MessagesOk, OneConversation, OneGeneration, GitOk, RunFits;
  }

  /** Runs of one task are told apart by their generation alone. */
  lemma GenerationsDiffer(s: Ledger, a: RunId, b: RunId)
    requires Reachable(s) && a in s.runs && b in s.runs
    requires s.runs[a].origin.task == s.runs[b].origin.task && s.runs[a].origin.generation == s.runs[b].origin.generation
    ensures a == b
  {
    ReachableHolds(s);
    hide IdsOk, TasksOk, RunsOk, MessagesOk, OneConversation, OneLiveRun, GitOk, RunLimitOk, ProjectsOk;
  }

  /** A task is Finishing exactly when its current run has requested an outcome; before that the
    run is live. */
  lemma FinishingMeansRequested(s: Ledger, k: TaskId)
    requires Reachable(s) && k in s.tasks && s.tasks[k].currentRun.Some? && s.tasks[k].status != TaskCancelled
    ensures s.tasks[k].currentRun.value in s.runs
    ensures s.tasks[k].status == TaskFinishing <==> s.runs[s.tasks[k].currentRun.value].outcome.Some?
    ensures s.tasks[k].status != TaskFinishing ==> s.runs[s.tasks[k].currentRun.value].Live()
  {
    hide InvExcept, TaskFits, NamesFit, PairFits;
    ReachableHolds(s);
    OutcomeMeansFinishing(s, k);
    TaskAt(s, {}, k);
  }

  /** Terminal ingress never wedges: it ends the run and lets go of its task, or leaves a submit to
    its capture. What the task becomes depends on the outcome the run requested, and without one on how
    it ended and on the retries that are left. */
  lemma TerminalIsAccepted(s: Ledger, id: RunId, input: TerminalInput, now: Time)
    requires Reachable(s) && id in s.runs && s.runs[id].Live()
    requires TerminalFence(s.runs[id], input) && ValidRunTransition(s.runs[id].state, input.state) && input.state != RunActive
    ensures RecordTerminal(s, id, input, now).Committed?
    ensures var s1 := RecordTerminal(s, id, input, now).ledger; var k := s.runs[id].origin.task;
            && s1.runs == s.runs[id := EndedRun(s.runs[id], input)]
            && k in s1.tasks
            && (s1.tasks[k].currentRun == Some(id) <==>
                  s.runs[id].outcome == Some(OutcomeSubmit) && s.tasks[k].status != TaskCancelled)
            && k in s.tasks
            && TaskSettled(Redelivered(s.messages, id, now), s.tasks[k], s1.tasks[k], s.runs[id].outcome, input.state, now)
  {
    hide InvExcept, Evolves, RecordTerminal, TerminalFence, TaskSettled;
    EndSettlesReachable(s, id, input, now);
    ReachableHolds(s);
    TerminalCommits(s, id, input, now);
    var s1 := RecordTerminal(s, id, input, now).ledger;
    TerminalLetsGo(s, s1, id, input, now);
  }

  lemma EndSettlesReachable(s: Ledger, id: RunId, input: TerminalInput, now: Time)
    requires Reachable(s) && id in s.runs && s.runs[id].Live()
    requires TerminalFence(s.runs[id], input) && ValidRunTransition(s.runs[id].state, input.state) && input.state != RunActive
    ensures RecordTerminal(s, id, input, now).Committed?
    ensures var s1 := RecordTerminal(s, id, input, now).ledger; var k := s.runs[id].origin.task;
            k in s.tasks && k in s1.tasks
            && TaskSettled(Redelivered(s.messages, id, now), s.tasks[k], s1.tasks[k], s.runs[id].outcome, input.state, now)
  {
    hide Inv, Evolves, RecordTerminal, TerminalFence, TaskSettled, Reachable, RowAfterEnd;
    ReachableHolds(s);
    TerminalCommits(s, id, input, now);
    EndSettles(s, id, input, now);
  }

  lemma TerminalLetsGo(s: Ledger, s1: Ledger, id: RunId, input: TerminalInput, now: Time)
    requires Inv(s) && id in s.runs && s.runs[id].Live() && ValidRunTransition(s.runs[id].state, input.state)
    requires input.state != RunActive && RecordTerminal(s, id, input, now) == Committed(s1)
    requires Kept(s, s1) && s1.runs == s.runs[id := EndedRun(s.runs[id], input)]
    ensures var k := s.runs[id].origin.task;
            k in s1.tasks
            && (s1.tasks[k].currentRun == Some(id) <==>
                  s.runs[id].outcome == Some(OutcomeSubmit) && s.tasks[k].status != TaskCancelled)
  {
    hide InvExcept, TaskFits, NamesFit, PairFits, ProjectTerminal;
    var k := s.runs[id].origin.task;
    RunAt(s, {}, id);
    assert k in s1.tasks;
    TaskAt(s, {}, k);
    TaskAt(s1, {}, k);
    hide Evolves;
    if s.tasks[k].status != TaskCancelled && s.runs[id].outcome == Some(OutcomeSubmit) {
      SubmitWaitsForCapture(s, s1, id, input, now);
    }
  }

  lemma SubmitWaitsForCapture(s: Ledger, s1: Ledger, id: RunId, input: TerminalInput, now: Time)
    requires Inv(s) && id in s.runs && s.runs[id].Live() && s.runs[id].outcome == Some(OutcomeSubmit)
    requires RecordTerminal(s, id, input, now) == Committed(s1)
    requires s.runs[id].origin.task in s.tasks && s.tasks[s.runs[id].origin.task].status != TaskCancelled
    requires s.tasks[s.runs[id].origin.task].currentRun == Some(id)
    ensures s1 == Terminated(s, s.runs[id], input, now)
  {
    hide Inv;
    OutcomeMeansFinishing(s, s.runs[id].origin.task);
    GenerationIsCurrent(s, s.runs[id].origin.task);
  }

  /** The unique index on current runs never rejects a write: no two tasks share one. */
  lemma CurrentRunsDiffer(s: Ledger, a: TaskId, b: TaskId)
    requires Reachable(s) && a in s.tasks && b in s.tasks
    requires s.tasks[a].currentRun.Some? && s.tasks[a].currentRun == s.tasks[b].currentRun
    ensures a == b
  {
    hide InvExcept, TaskFits, NamesFit, PairFits;
    ReachableHolds(s);
    TaskAt(s, {}, a);
    TaskAt(s, {}, b);
  }

  /** A retried task has outgrown every run it ever had: none may act for it any more. */
  lemma RetryOutdatesRuns(s: Ledger, id: TaskId, now: Time, r: RunId)
    requires Reachable(s) && RetryTask(s, id, now).Committed? && r in s.runs && s.runs[r].origin.task == id
    ensures var s1 := RetryTask(s, id, now).ledger;
            && s1.runs == s.runs && id in s1.tasks
            && s.runs[r].origin.generation < s1.tasks[id].generation
            && !s.runs[r].Live() && !Authenticated(s1, r)
  {
    hide InvExcept, Reachable, RunFits, CurrentRunFits, NamesFit, PairFits;
    ReachableHolds(s);
    TaskAt(s, {}, id);
    RunAt(s, {}, r);
  }

  /** A cancelled task only keeps a run that is live, has been told to stop and holds no token. */
  lemma CancelledRunIsStopped(s: Ledger, k: TaskId)
    requires Reachable(s) && k in s.tasks && s.tasks[k].status == TaskCancelled && s.tasks[k].currentRun.Some?
    ensures var r := s.tasks[k].currentRun.value;
            && r in s.runs && (s.runs[r].state == RunStarting || s.runs[r].state == RunActive)
            && s.runs[r].stop.Some? && s.runs[r].tokenRevoked && !Authenticated(s, r)
  {
    hide InvExcept, NamesFit, PairFits, TaskFits;
    ReachableHolds(s);
    TaskAt(s, {}, k);
  }

  // ---- archives ----

  /** Archiving is final and leaves nothing behind: whatever happens later, an archived agent is
    assigned to no open task, accepted for none, and has no message waiting. */
  lemma ArchivedAgentIsDone(s: Ledger, agent: AgentId, events: seq<Event>, t: TaskId, m: MessageId)
    requires Reachable(s) && agent in s.agents && s.agents[agent] == AgentArchived
    ensures var later := RunAll(s, events);
            && agent in later.agents && later.agents[agent] == AgentArchived
            && (t in later.tasks && later.tasks[t].Open() ==>
                  later.tasks[t].origin.assignee != Some(agent) && later.tasks[t].accepted != Some(agent))
            && (m in later.messages && later.messages[m].Unresolved() ==> later.messages[m].recipient != ToAgent(agent))
  {
    hide InvExcept, RunAll, TasksEvolve, RunsEvolve, MessagesEvolve, GitEvolves, Accounted, TaskFits;
    ReachableHolds(s);
    RunsKeep(s, events);
    var later := RunAll(s, events);
    if t in later.tasks {
      TaskAt(later, {}, t);
    }
    if m in later.messages && later.messages[m].Unresolved() {
      MessageAt(later, {}, m);
      TaskAt(later, {}, later.messages[m].task);
    }
  }

  /** The same for a project: an archived one has no open task and no message waiting. */
  lemma ArchivedProjectIsDone(s: Ledger, project: ProjectId, events: seq<Event>, t: TaskId, m: MessageId)
    requires Reachable(s) && project in s.projects && s.projects[project].status == ProjectArchived
    ensures var later := RunAll(s, events);
            && project in later.projects && later.projects[project].status == ProjectArchived
            && (t in later.tasks && later.tasks[t].origin.project == project ==> !later.tasks[t].Open())
            && (m in later.messages && later.messages[m].project == project ==> !later.messages[m].Unresolved())
  {
    hide InvExcept, RunAll, TasksEvolve, RunsEvolve, MessagesEvolve, GitEvolves, Accounted, TaskFits;
    ReachableHolds(s);
    RunsKeep(s, events);
    var later := RunAll(s, events);
    if t in later.tasks {
      TaskAt(later, {}, t);
    }
    if m in later.messages && later.messages[m].Unresolved() {
      MessageAt(later, {}, m);
      TaskAt(later, {}, later.messages[m].task);
    }
  }
}
