/** Why each operation refuses: the error names the first thing that is wrong, in the order the service looks. */
module Refusals {
  import opened Commits
  import opened Model
  import opened Tables
  import opened MessageSteps
  import opened RunSteps
  import opened TaskSteps
  import opened GitSteps
  import opened ProjectSteps
  import opened Invariant
  import opened MessageProofs
  import opened Disposal
  import opened RunEffects
  import opened TerminalEffects
  import opened MessageEffects
  import opened TaskEffects
  import opened GitEffects
  import opened RegistryEffects
  import opened Safety
  import opened Intents

  predicate IsBusy(task: Task) {
    task.status == TaskFinishing || task.pending.Some? || task.link.Some?
  }

  // ---- runs ----

  lemma LaunchRefusal(s: Ledger, id: RunId, generation: nat, nonce: nat, cleanup: OperationId)
    requires Inv(s) && BeginLaunch(s, id, generation, nonce, cleanup).Aborted?
    ensures BeginLaunch(s, id, generation, nonce, cleanup).error
            == if id !in s.runs then NotFound
               else if !StartsFor(s, id) || s.runs[id].origin.generation != generation || s.runs[id].state != RunStarting
                       || s.runs[id].phase != LaunchIntent || s.runs[id].container.Some?
               then StaleRun
               else ActionInProgress
  {
    hide InvExcept, RunFits;
    if id in s.runs {
      RunAt(s, {}, id);
    }
  }

  lemma FactRefusal(s: Ledger, id: RunId, key: RuntimeKey, session: string)
    requires Inv(s)
    ensures RecordContainerCreated(s, id, key).Aborted? ==>
              RecordContainerCreated(s, id, key).error
              == if key.container.None? then InvalidArgument else if id !in s.runs then NotFound
                 else if !NamesLaunch(s.runs[id], key) then StaleRun else InvalidState
    ensures RecordStartIssued(s, id, key).Aborted? ==>
              RecordStartIssued(s, id, key).error
              == if id !in s.runs then NotFound else if !NamesLaunch(s.runs[id], key) then StaleRun else InvalidState
    ensures RecordSession(s, id, key, session).Aborted? ==>
              RecordSession(s, id, key, session).error
              == if session == "" then InvalidArgument else if id !in s.runs then NotFound
                 else if !NamesLaunch(s.runs[id], key) then StaleRun else InvalidState
    ensures RecordHeartbeat(s, id, key).Aborted? ==>
              RecordHeartbeat(s, id, key).error
              == if id !in s.runs then NotFound else if !NamesLaunch(s.runs[id], key) then StaleRun else InvalidState
  {
    hide InvExcept;
    if id in s.runs {
      RunAt(s, {}, id);
    }
  }

  /** Here the phase is looked at before the fence, and the task last. */
  lemma ActivationRefusal(s: Ledger, id: RunId, key: RuntimeKey)
    requires Inv(s) && Activate(s, id, key).Aborted?
    ensures Activate(s, id, key).error
            == if id !in s.runs then NotFound
               else if s.runs[id].state != RunActive && (s.runs[id].state != RunStarting || s.runs[id].phase != LaunchStartIssued)
               then InvalidState
               else if !NamesLaunch(s.runs[id], key) then StaleRun
               else VersionConflict
  {
    hide InvExcept;
    if id in s.runs {
      RunAt(s, {}, id);
    }
  }

  lemma CleanupRefusal(
    s: Ledger, id: RunId, key: RuntimeKey, operation: OperationId, next: CleanupState, lastError: string
  )
    requires Inv(s) && RecordCleanup(s, id, key, operation, next, lastError).Aborted?
    ensures RecordCleanup(s, id, key, operation, next, lastError).error
            == if next == CleanupNotNeeded then InvalidArgument else if id !in s.runs then NotFound
               else if !NamesLaunch(s.runs[id], key) || s.runs[id].cleanupOperation != Some(operation) then StaleRun
               else InvalidState
  {
    hide InvExcept, ValidCleanupTransition;
    if id in s.runs {
      RunAt(s, {}, id);
    }
  }

  lemma StopRefusal(s: Ledger, id: RunId, reason: string, operation: Option<OperationId>)
    requires RequestStop(s, id, reason, operation).Aborted?
    ensures RequestStop(s, id, reason, operation).error
            == if id !in s.runs then NotFound
               else if s.runs[id].state != RunStarting && s.runs[id].state != RunActive then InvalidState
               else ActionInProgress
  {
  }

  lemma OutcomeRefusal(s: Ledger, id: RunId, outcome: TaskOutcome, seenTask: Task, seenRun: Run, head: Commit)
    requires Inv(s) && ApplyOutcome(s, id, outcome, seenTask, seenRun, head).Aborted?
    ensures ApplyOutcome(s, id, outcome, seenTask, seenRun, head).error
            == if !MayAct(s, id) then StaleRun
               else
                 var task := s.tasks[s.runs[id].origin.task];
                 if task.version != seenTask.version || seenTask.status != TaskRunning
                    || s.runs[id].version != seenRun.version || seenRun.state != RunActive
                 then VersionConflict
                 else InvalidState
  {
    hide InvExcept, CurrentRunFits, NamesFit, PairFits, KindFits, ResultFits, RunFits;
    if id in s.runs {
      RunAt(s, {}, id);
      TaskAt(s, {}, s.runs[id].origin.task);
    }
  }

  lemma EndRefusal(s: Ledger, id: RunId, input: TerminalInput, now: Time)
    requires Inv(s) && RecordTerminal(s, id, input, now).Aborted?
    ensures RecordTerminal(s, id, input, now).error
            == if IsLive(input.state) then InvalidArgument else if id !in s.runs then NotFound
               else if !NamesEnd(s.runs[id], input) then StaleRun else InvalidState
  {
    hide InvExcept, ProjectTerminal, RunFits, Terminated;
    EndIsAcceptedExactly(s, id, input, now);
    if id in s.runs {
      RunAt(s, {}, id);
    }
  }

  // ---- messages ----

  lemma SendRefusal(s: Ledger, project: ProjectId, agent: AgentId, explicit: Option<TaskId>, wake: bool, now: Time)
    requires SendToAgent(s, project, agent, explicit, wake, now).Aborted?
    ensures SendToAgent(s, project, agent, explicit, wake, now).error
            == if project !in s.projects || agent !in s.agents then NotFound
               else if s.agents[agent] == AgentArchived || s.projects[project].status != ProjectActive then InvalidState
               else if explicit.Some? && explicit.value !in s.tasks then NotFound
               else if explicit.Some? && (s.tasks[explicit.value].origin.project != project
                                          || s.tasks[explicit.value].origin.assignee != Some(agent)) then ScopeDenied
               else InvalidState
  {
    hide InsertMessage, WakeDelivery, NewConversation;
  }

  function DeliveryRefusal(s: Ledger, run: Run, id: MessageId): Error {
    if id !in s.messages then NotFound
    else if s.messages[id].project != run.origin.project || s.messages[id].recipient != ToAgent(run.origin.agent) then ScopeDenied
    else if s.messages[id].task !in s.tasks then NotFound
    else InvalidState
  }

  /** A refused list names the trouble with its first message that may not be delivered. */
  ghost predicate FirstRefused(s: Ledger, run: Run, ids: seq<MessageId>, now: Time, error: Error, i: nat) {
    && i < |ids| && (forall j :: 0 <= j < i ==> MayDeliver(s, run, ids[j], now)) && !MayDeliver(s, run, ids[i], now)
    && error == DeliveryRefusal(s, run, ids[i])
  }

  lemma {:induction false} DeliverEachRefusal(s: Ledger, run: Run, ids: seq<MessageId>, now: Time)
    requires KeyedMessages(s) && DeliverEach(s, run, ids, now).Aborted?
    ensures exists i: nat :: FirstRefused(s, run, ids, now, DeliverEach(s, run, ids, now).error, i)
    decreases |ids|
  {
    hide MayDeliver, DeliverOne, KeyedMessages, DeliveryRefusal;
    DeliverOneDelivers(s, run, ids[0], now);
    if DeliverOne(s, run, ids[0], now).Aborted? {
      OneRefused(s, run, ids[0], now);
      assert FirstRefused(s, run, ids, now, DeliverEach(s, run, ids, now).error, 0);
    } else {
      var s1 := DeliverOne(s, run, ids[0], now).ledger;
      DeliverEachRefusal(s1, run, ids[1..], now);
      var error := DeliverEach(s, run, ids, now).error;
      var i: nat :| FirstRefused(s1, run, ids[1..], now, error, i);
      forall j | 0 <= j <= i
        ensures MayDeliver(s, run, ids[j + 1], now) <==> MayDeliver(s1, run, ids[1..][j], now)
      {
        DeliveryStaysPossible(s, run, ids[0], now, s1, ids[j + 1]);
      }
      RefusalStays(s, run, ids[0], s1, ids[i + 1]);
      assert forall j :: 0 <= j < i + 1 ==> MayDeliver(s, run, ids[j], now) by {
        forall j | 0 <= j < i + 1
          ensures MayDeliver(s, run, ids[j], now)
        {
          if j > 0 {
            assert MayDeliver(s1, run, ids[1..][j - 1], now);
          }
        }
      }
      assert FirstRefused(s, run, ids, now, error, i + 1);
    }
  }

  lemma OneRefused(s: Ledger, run: Run, id: MessageId, now: Time)
    requires DeliverOne(s, run, id, now).Aborted?
    ensures DeliverOne(s, run, id, now).error == DeliveryRefusal(s, run, id)
  {
  }

  lemma RefusalStays(s: Ledger, run: Run, first: MessageId, s1: Ledger, id: MessageId)
    requires Delivers(s, run.id, [first], s1)
    ensures DeliveryRefusal(s1, run, id) == DeliveryRefusal(s, run, id)
  {
  }

  lemma DeliveryIsRefused(s: Ledger, run: RunId, ids: seq<MessageId>, now: Time)
    requires Inv(s) && DeliverMessages(s, run, ids, now).Aborted?
    ensures var error := DeliverMessages(s, run, ids, now).error;
            if ids == [] then error == InvalidArgument
            else if run !in s.runs then error == NotFound
            else if s.runs[run].state != RunStarting && s.runs[run].state != RunActive then error == InvalidState
            else
              s.runs[run].origin.task in s.tasks
              && if s.tasks[s.runs[run].origin.task].generation != s.runs[run].origin.generation then error == VersionConflict
                 else exists i: nat :: FirstRefused(s, s.runs[run], ids, now, error, i)
  {
    hide InvExcept, DeliverEach, FirstRefused, RunFits, KeyedMessages;
    MessagesAreKeyed(s);
    if run in s.runs {
      RunAt(s, {}, run);
      if DeliverEach(s, s.runs[run], ids, now).Aborted? {
        DeliverEachRefusal(s, s.runs[run], ids, now);
      }
    }
  }

  function AcknowledgeRefusal(s: Ledger, project: ProjectId, agent: AgentId, id: MessageId): Error {
    if id !in s.messages then NotFound
    else if s.messages[id].project != project || s.messages[id].recipient != ToAgent(agent) then ScopeDenied
    else InvalidState
  }

  /** The same for a list that is acknowledged. */
  ghost predicate FirstUnacknowledged(
    s: Ledger, project: ProjectId, agent: AgentId, ids: seq<MessageId>, error: Error, i: nat
  ) {
    && i < |ids| && (forall j :: 0 <= j < i ==> MayAcknowledge(s, project, agent, ids[j]))
    && !MayAcknowledge(s, project, agent, ids[i]) && error == AcknowledgeRefusal(s, project, agent, ids[i])
  }

  lemma {:induction false} AcknowledgeIsRefused(s: Ledger, project: ProjectId, agent: AgentId, ids: seq<MessageId>)
    requires KeyedMessages(s) && Acknowledge(s, project, agent, ids).Aborted?
    ensures exists i: nat :: FirstUnacknowledged(s, project, agent, ids, Acknowledge(s, project, agent, ids).error, i)
    decreases |ids|
  {
    hide AcknowledgeOne, MayAcknowledge, KeyedMessages, AcknowledgeRefusal;
    AcknowledgeOneAcknowledges(s, project, agent, ids[0]);
    if AcknowledgeOne(s, project, agent, ids[0]).Aborted? {
      OneUnacknowledged(s, project, agent, ids[0]);
      assert FirstUnacknowledged(s, project, agent, ids, Acknowledge(s, project, agent, ids).error, 0);
    } else {
      var s1 := AcknowledgeOne(s, project, agent, ids[0]).ledger;
      AcknowledgeIsRefused(s1, project, agent, ids[1..]);
      var error := Acknowledge(s, project, agent, ids).error;
      var i: nat :| FirstUnacknowledged(s1, project, agent, ids[1..], error, i);
      forall j | 0 <= j <= i
        ensures MayAcknowledge(s, project, agent, ids[j + 1]) <==> MayAcknowledge(s1, project, agent, ids[1..][j])
        ensures AcknowledgeRefusal(s, project, agent, ids[j + 1]) == AcknowledgeRefusal(s1, project, agent, ids[1..][j])
      {
        AcknowledgeStaysPossible(s, project, agent, [ids[0]], s1, ids[j + 1]);
        AcknowledgeRefusalStays(s, project, agent, [ids[0]], s1, ids[j + 1]);
      }
      forall j | 0 <= j < i + 1
        ensures MayAcknowledge(s, project, agent, ids[j])
      {
        if j > 0 {
          assert MayAcknowledge(s1, project, agent, ids[1..][j - 1]);
        }
      }
      assert FirstUnacknowledged(s, project, agent, ids, error, i + 1);
    }
  }

  lemma OneUnacknowledged(s: Ledger, project: ProjectId, agent: AgentId, id: MessageId)
    requires AcknowledgeOne(s, project, agent, id).Aborted?
    ensures AcknowledgeOne(s, project, agent, id).error == AcknowledgeRefusal(s, project, agent, id)
  {
  }

  lemma AcknowledgeRefusalStays(
    s: Ledger, project: ProjectId, agent: AgentId, ids: seq<MessageId>, s1: Ledger, id: MessageId
  )
    requires Acknowledges(s, ids, s1)
    ensures AcknowledgeRefusal(s1, project, agent, id) == AcknowledgeRefusal(s, project, agent, id)
  {
  }

  lemma RetryMessageRefusal(s: Ledger, id: MessageId, now: Time)
    requires Inv(s) && RetryMessage(s, id, now).Aborted?
    ensures RetryMessage(s, id, now).error
            == if id !in s.messages then NotFound else if s.messages[id].recipient.ToBoss? then ScopeDenied else InvalidState
  {
    hide InvExcept, Accounted;
    if id in s.messages {
      MessageAt(s, {}, id);
    }
  }

  // ---- tasks ----

  lemma CreateRefusal(
    s: Ledger, creator: Creator, project: ProjectId, seenVersion: nat, assignee: Option<AgentId>, priority: int,
    maxRetries: nat, base: Commit, source: Option<TaskId>, sourceVersion: nat, now: Time
  )
    requires Inv(s)
    requires CreateTask(s, creator, project, seenVersion, assignee, priority, maxRetries, base, source, sourceVersion, now).Aborted?
    ensures CreateTask(s, creator, project, seenVersion, assignee, priority, maxRetries, base, source, sourceVersion, now).error
            == if creator.ByRun? && !MayAct(s, creator.run) then StaleRun
               else if creator.ByRun? && s.runs[creator.run].origin.project != project then ScopeDenied
               else if project !in s.projects then NotFound
               else if s.projects[project].status != ProjectActive then InvalidState
               else if creator.ByRun? && s.projects[project].version != seenVersion then VersionConflict
               else if source.Some? && !MayBuildOn(s, project, source.value, sourceVersion) then VersionConflict
               else if assignee.Some? && assignee.value !in s.agents then NotFound
               else InvalidState
  {
    hide InvExcept, RunFits;
    if creator.ByRun? && creator.run in s.runs {
      RunAt(s, {}, creator.run);
    }
  }

  /** Operator actions report a missing task, then work in progress on it, then a status they do not fit. */
  lemma ActionRefusal(s: Ledger, id: TaskId, now: Time)
    ensures WakeTask(s, id, now).Aborted? ==>
              WakeTask(s, id, now).error
              == if id !in s.tasks then NotFound else if IsBusy(s.tasks[id]) then ActionInProgress else InvalidState
    ensures RetryTask(s, id, now).Aborted? ==>
              RetryTask(s, id, now).error
              == if id !in s.tasks then NotFound else if IsBusy(s.tasks[id]) then ActionInProgress else InvalidState
    ensures ReworkTask(s, id, now).Aborted? ==>
              ReworkTask(s, id, now).error
              == if id !in s.tasks then NotFound else if s.tasks[id].origin.kind == TaskConversation then InvalidState
                 else if IsBusy(s.tasks[id]) then ActionInProgress else InvalidState
    ensures CloseConversation(s, id).Aborted? ==>
              CloseConversation(s, id).error
              == if id !in s.tasks then NotFound else if s.tasks[id].origin.kind != TaskConversation then InvalidState
                 else if IsBusy(s.tasks[id]) then ActionInProgress else InvalidState
  {
    hide Reenabled, ClosedMessages, ValidTaskTransition;
  }

  lemma CancelRefusal(s: Ledger, id: TaskId, reason: string, now: Time)
    requires Inv(s) && CancelTask(s, id, reason, now).Aborted?
    ensures CancelTask(s, id, reason, now).error
            == if id !in s.tasks then NotFound else if IsBusy(s.tasks[id]) then ActionInProgress else InvalidState
  {
    hide Inv, ReleaseSource, StopCurrentRun, Conclude, Concluded, TaskCancelledIn, MayCancel, ValidTaskTransition;
    CancelStopsAndConcludes(s, id, reason, now);
    MayCancelMeans(s, id);
  }

  lemma ConfirmationRefusal(s: Ledger, id: TaskId, now: Time)
    requires Inv(s) && CompleteTask(s, id, now).Aborted?
    ensures CompleteTask(s, id, now).error == if id !in s.tasks then NotFound else InvalidState
  {
    hide Inv, NotifyParent, ParentIsTold;
    ConfirmationCompletes(s, id, now);
    if id in s.tasks {
      WaitingIsFree(s, id);
    }
  }

  // ---- Git ----

  lemma AcceptRefusal(
    s: Ledger, id: TaskId, chosen: Option<AgentId>, seen: Task, seenProject: Project, head: Commit, canonical: Commit
  )
    requires Inv(s) && RequestAccept(s, id, chosen, seen, seenProject, head, canonical).Aborted?
    ensures var error := RequestAccept(s, id, chosen, seen, seenProject, head, canonical).error;
            if id !in s.tasks then error == NotFound
            else if s.tasks[id].origin.kind == TaskConversation then error == InvalidState
            else if IsBusy(s.tasks[id]) then error == ActionInProgress
            else if s.tasks[id].status != TaskSubmitted then error == InvalidState
            else
              s.tasks[id].origin.project in s.projects && s.tasks[id].result.Some?
              && var project := s.projects[s.tasks[id].origin.project];
                 var selected := Integrator(s, s.tasks[id].origin.project, chosen);
                 error == if project.status != ProjectActive then InvalidState
                          else if selected.None? then IntegrationAgentRequired
                          else if selected.value !in s.agents then NotFound
                          else if s.agents[selected.value] != AgentActive then InvalidState
                          else if s.tasks[id].version != seen.version || s.tasks[id].result != seen.result
                                  || project.version != seenProject.version then VersionConflict
                          else GitInvariantViolation
  {
    hide InvExcept, CurrentRunFits, PairFits, KindFits;
    if id in s.tasks {
      TaskAt(s, {}, id);
    }
  }

  /** A projection of a reported fact is refused when the row was written since, or when the project stopped. */
  lemma ProjectionRefusal(s: Ledger, fact: GitFact, canonical: Commit, now: Time)
    requires Reachable(s) && fact in s.facts
    ensures fact.CaptureFact? && fact.run in s.runs && FinalizeCapture(s, fact, canonical, now).Aborted? ==>
              FinalizeCapture(s, fact, canonical, now).error
              == if StillRead(s, fact) && HasEnded(s, fact.run) then InvalidState else StaleRun
    ensures fact.AdvanceFact? && fact.outcome != AdvanceStale && FinalizeSuccess(s, fact, now).Aborted? ==>
              FinalizeSuccess(s, fact, now).error == if StillRead(s, fact) then InvalidState else VersionConflict
    ensures fact.AdvanceFact? && fact.outcome == AdvanceStale && FinalizeStale(s, fact, now).Aborted? ==>
              FinalizeStale(s, fact, now).error == if StillRead(s, fact) then InvalidState else VersionConflict
  {
    hide InvExcept, Reachable, StoreCapture, StoreCompletion, RestartIntegration, OpenIntegration, SameCaptureFence,
         SameAdvanceFence, TaskOk;
    ReachableHolds(s);
    ReportedIntent(s, fact);
    RowIsThere(s, fact.intent.id);
    if fact.CaptureFact? && fact.run in s.runs {
      CaptureFenceIsExact(s, fact.intent);
      CaptureIsAcceptedExactly(s, fact, canonical, now);
    }
    if fact.AdvanceFact? {
      AdvanceFenceIsExact(s, fact.intent);
      AdvanceIsAcceptedExactly(s, fact, now);
    }
  }

  // ---- agents and projects ----

  lemma RegistryRefusal(
    s: Ledger, agent: AgentId, status: AgentStatus, project: ProjectId, initial: Commit, integrator: Option<AgentId>
  )
    ensures SetAgentStatus(s, agent, status).Aborted? ==>
              SetAgentStatus(s, agent, status).error == if agent !in s.agents then NotFound else InvalidState
    ensures ArchiveAgent(s, agent).Aborted? ==>
              ArchiveAgent(s, agent).error == if agent !in s.agents then NotFound else InvalidState
    ensures AddProject(s, initial, integrator).Aborted? ==>
              integrator.Some?
              && AddProject(s, initial, integrator).error == if integrator.value !in s.agents then NotFound else InvalidState
    ensures RepairProject(s, project).Aborted? ==>
              RepairProject(s, project).error == if project !in s.projects then NotFound else InvalidState
    ensures ArchiveProject(s, project).Aborted? ==>
              ArchiveProject(s, project).error
              == if project !in s.projects then NotFound
                 else if s.projects[project].pending.Some? then ActionInProgress else InvalidState
  {
    hide AgentIsNeeded, ProjectIsNeeded;
  }
}
