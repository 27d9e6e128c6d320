/** What each operation on tasks does, column by column: when it is accepted, which columns it writes, and
  that it writes nothing else.
 */
module TaskEffects {
  import opened Commits
  import opened Model
  import opened Tables
  import opened MessageSteps
  import opened RunSteps
  import opened TaskSteps
  import opened Invariant
  import opened RowChanges
  import opened MessageProofs
  import opened TaskProofs
  import opened RunEffects
  import opened MessageEffects
  import opened Disposal

  /** Only this task row changed. */
  ghost predicate OnlyTask(s: Ledger, id: TaskId, s1: Ledger) {
    id in s.tasks && id in s1.tasks && s1 == s.(tasks := s.tasks[id := s1.tasks[id]])
  }

  // ---- creation ----

  /** The agent of an active run creates in its own project, whose row it has seen; the operator anywhere. */
  ghost predicate MayCreate(s: Ledger, creator: Creator, project: ProjectId, seenVersion: nat) {
    && project in s.projects && s.projects[project].status == ProjectActive
    && (creator.ByRun? ==>
          MayAct(s, creator.run) && s.runs[creator.run].origin.project == project
          && s.projects[project].version == seenVersion)
  }

  /** A source is a result of the same project that has not changed since it was seen. */
  ghost predicate MayBuildOn(s: Ledger, project: ProjectId, source: TaskId, seenVersion: nat) {
    && source in s.tasks && s.tasks[source].origin.project == project && s.tasks[source].version == seenVersion
    && s.tasks[source].result.Some? && (s.tasks[source].status == TaskSubmitted || s.tasks[source].status == TaskCompleted)
  }

  lemma CreateAddsTask(
    s: Ledger, creator: Creator, project: ProjectId, seenVersion: nat, assignee: Option<AgentId>, priority: int,
    maxRetries: nat, base: Commit, source: Option<TaskId>, sourceVersion: nat, now: Time
  )
    requires Inv(s)
    ensures var tx := CreateTask(s, creator, project, seenVersion, assignee, priority, maxRetries, base, source, sourceVersion, now);
            tx.Committed? <==>
              && MayCreate(s, creator, project, seenVersion)
              && (source.Some? ==> MayBuildOn(s, project, source.value, sourceVersion))
              && (assignee.Some? ==> assignee.value in s.agents && s.agents[assignee.value] != AgentArchived)
    ensures var tx := CreateTask(s, creator, project, seenVersion, assignee, priority, maxRetries, base, source, sourceVersion, now);
            tx.Committed? ==>
              var s1 := tx.ledger; var id := s.nextId;
              && id !in s.tasks && id in s1.tasks && s1 == s.(tasks := s.tasks[id := s1.tasks[id]], nextId := id + 1)
              && var t := s1.tasks[id];
              && t.id == id && t.origin.project == project && t.origin.kind == TaskWork && t.origin.assignee == assignee
              && t.origin.priority == priority && t.origin.createdAt == now && t.origin.maxRetries == maxRetries
              && t.origin.base == Some(base)
              && (creator.Boss? ==> t.origin.parent == None)
              && (creator.ByRun? ==> creator.run in s.runs && t.origin.parent == Some(s.runs[creator.run].origin.task))
              && (source.None? ==> t.origin.source == None)
              && (source.Some? ==>
                    source.value in s.tasks && s.tasks[source.value].result.Some?
                    && t.origin.source == Some(Source(source.value, s.tasks[source.value].result.value)))
              && t.status == (if assignee.Some? then TaskQueued else TaskWaiting) && t.nextRunAt == now
              && t.currentRun == None && t.generation == 0 && t.retryCount == 0 && t.result == None && t.accepted == None
              && t.finalCanonical == None && t.link == None && t.pending == None && !t.sourceReleased && t.version == 1
  {
    hide InvExcept, RunFits;
    FreshId(s, {});
    if creator.ByRun? && creator.run in s.runs {
      RunAt(s, {}, creator.run);
    }
  }

  // ---- wake, retry, rework ----

  /** A task of an agent that waits runs at once, and its exhausted messages get their budget back. */
  lemma WakeQueuesTask(s: Ledger, id: TaskId, now: Time)
    requires Inv(s)
    ensures WakeTask(s, id, now).Committed? <==>
              id in s.tasks && s.tasks[id].status == TaskWaiting && s.tasks[id].origin.assignee.Some?
    ensures WakeTask(s, id, now).Committed? ==>
              var s1 := WakeTask(s, id, now).ledger; var was := s.tasks[id];
              && id in s1.tasks && s1 == s.(tasks := s.tasks[id := s1.tasks[id]], messages := s1.messages)
              && s1.tasks[id] == was.(status := TaskQueued, nextRunAt := now, version := was.version + 1)
              && s1.messages.Keys == s.messages.Keys
              && forall m :: m in s.messages ==>
                   var message := s.messages[m];
                   s1.messages[m] == if message.task == id && message.recipient.ToAgent? && message.state == MessagePending
                                        && BudgetSpent(message)
                                     then message.(count := 0, nextAt := Some(now), version := message.version + 1)
                                     else message
  {
    hide InvExcept, CurrentRunFits, NamesFit, PairFits, ResultFits;
    if id in s.tasks {
      TaskAt(s, {}, id);
    }
  }

  /** A failed task runs again, at once and under a new generation. */
  lemma RetryQueuesTask(s: Ledger, id: TaskId, now: Time)
    requires Inv(s)
    ensures RetryTask(s, id, now).Committed? <==> id in s.tasks && s.tasks[id].status == TaskFailed
    ensures RetryTask(s, id, now).Committed? ==>
              var s1 := RetryTask(s, id, now).ledger; var was := s.tasks[id];
              && OnlyTask(s, id, s1)
              && s1.tasks[id] == was.(status := TaskQueued, generation := was.generation + 1, nextRunAt := now,
                                      version := was.version + 1)
  {
    hide InvExcept, CurrentRunFits, NamesFit, PairFits, ResultFits;
    if id in s.tasks {
      TaskAt(s, {}, id);
    }
  }

  /** A submitted task that is neither being accepted nor integrated runs again, its acceptance withdrawn. */
  lemma ReworkQueuesTask(s: Ledger, id: TaskId, now: Time)
    requires Inv(s)
    ensures ReworkTask(s, id, now).Committed? <==>
              id in s.tasks && s.tasks[id].status == TaskSubmitted && s.tasks[id].pending == None && s.tasks[id].link == None
    ensures ReworkTask(s, id, now).Committed? ==>
              var s1 := ReworkTask(s, id, now).ledger; var was := s.tasks[id];
              && OnlyTask(s, id, s1)
              && s1.tasks[id] == was.(status := TaskQueued, nextRunAt := now, accepted := None, version := was.version + 1)
  {
    hide InvExcept, CurrentRunFits, NamesFit, PairFits, ResultFits;
    if id in s.tasks {
      TaskAt(s, {}, id);
    }
  }

  // ---- cancel ----

  ghost predicate MayCancel(s: Ledger, id: TaskId) {
    && id in s.tasks && s.tasks[id].pending == None && s.tasks[id].link == None
    && s.tasks[id].status != TaskFinishing && s.tasks[id].status != TaskCompleted && s.tasks[id].status != TaskCancelled
  }

  /** Its live run is told to stop and loses its token: an earlier stop is kept, a new one carries the reason. */
  ghost predicate LiveRunStopped(s: Ledger, task: Task, reason: string, s1: Ledger) {
    if task.currentRun.Some? then
      var r := task.currentRun.value;
      && r in s.runs && r in s1.runs && s1.runs == s.runs[r := s1.runs[r]]
      && s1.runs[r].stop.Some? && s1.runs[r].tokenRevoked
      && (if s.runs[r].stop.Some? then s1.runs[r].stop == s.runs[r].stop && s1.nextId == s.nextId
          else s1.runs[r].stop == Some(Stop(reason, s.nextId)) && s1.nextId == s.nextId + 1)
      && s1.runs[r] == s.runs[r].(stop := s1.runs[r].stop, tokenRevoked := true, version := s1.runs[r].version)
      && (s1.runs[r].version == s.runs[r].version <==> s1.runs[r] == s.runs[r])
    else s1.runs == s.runs && s1.nextId == s.nextId
  }

  /** The cancelled row keeps a run that is still live, so that its end can be recorded; an integration task
    gives its source back to the operator. */
  ghost predicate RowsCancelled(s: Ledger, id: TaskId, s1: Ledger)
    requires id in s.tasks
  {
    var was := s.tasks[id];
    && s1.tasks.Keys == s.tasks.Keys
    && s1.tasks[id] == was.(status := TaskCancelled, generation := was.generation + 1, version := was.version + 1)
    && forall k :: k in s.tasks && k != id ==>
         s1.tasks[k] == if was.origin.kind == TaskIntegration && was.origin.source.Some? && k == was.origin.source.value.task
                        then s.tasks[k].(link := None, accepted := None, version := s.tasks[k].version + 1)
                        else s.tasks[k]
  }

  ghost predicate TaskCancelledIn(s: Ledger, id: TaskId, reason: string, s0: Ledger)
    requires id in s.tasks
  {
    && s0 == s.(tasks := s0.tasks, runs := s0.runs, nextId := s0.nextId)
    && RowsCancelled(s, id, s0) && LiveRunStopped(s, s.tasks[id], reason, s0)
  }

  lemma CurrentRunIsLive(s: Ledger, id: TaskId)
    requires Inv(s) && MayCancel(s, id) && s.tasks[id].currentRun.Some?
    ensures s.tasks[id].currentRun.value in s.runs && s.runs[s.tasks[id].currentRun.value].Live()
    ensures s.runs[s.tasks[id].currentRun.value].id == s.tasks[id].currentRun.value
  {
    hide InvExcept, NamesFit, PairFits, ResultFits;
    TaskAt(s, {}, id);
    RunAt(s, {}, s.tasks[id].currentRun.value);
  }

  lemma StopStops(s: Ledger, s0: Ledger, id: TaskId, reason: string)
    requires Inv(s) && MayCancel(s, id) && s0 == s.(tasks := s0.tasks)
    ensures StopCurrentRun(s0, s.tasks[id], reason).Committed?
    ensures var s1 := StopCurrentRun(s0, s.tasks[id], reason).ledger;
            LiveRunStopped(s, s.tasks[id], reason, s1) && s1 == s0.(runs := s1.runs, nextId := s1.nextId)
            && CancelledRow(s1, s.tasks[id])
               == s.tasks[id].(status := TaskCancelled, generation := s.tasks[id].generation + 1,
                               version := s.tasks[id].version + 1)
  {
    hide Inv;
    if s.tasks[id].currentRun.Some? {
      CurrentRunIsLive(s, id);
      var r := s.tasks[id].currentRun.value;
      assert s.runs[r := s.runs[r]] == s.runs;
    }
  }

  lemma ReleaseReleases(s: Ledger, id: TaskId)
    requires Inv(s) && MayCancel(s, id)
    ensures ReleaseSource(s, s.tasks[id]).Committed?
    ensures var s1 := ReleaseSource(s, s.tasks[id]).ledger; var was := s.tasks[id];
            && s1 == s.(tasks := s1.tasks) && s1.tasks.Keys == s.tasks.Keys && s1.tasks[id] == was
            && forall k :: k in s.tasks && k != id ==>
                 s1.tasks[k] == if was.origin.kind == TaskIntegration && was.origin.source.Some? && k == was.origin.source.value.task
                                then s.tasks[k].(link := None, accepted := None, version := s.tasks[k].version + 1)
                                else s.tasks[k]
  {
    hide InvExcept, Detached;
    TaskAt(s, {}, id);
    hide TaskOk, IntegrationSourceFence;
    ReleaseKeeps(s, s.tasks[id]);
    if s.tasks[id].origin.source.Some? && s.tasks[id].origin.source.value.task in s.tasks {
      TaskAt(s, {}, s.tasks[id].origin.source.value.task);
    }
  }

  /** A cancel is accepted exactly for a task that is open, not finishing, and free of Git actions and
    integrations. It cancels the task, stops its live run, releases its source, and concludes it. */
  lemma CancelStopsAndConcludes(s: Ledger, id: TaskId, reason: string, now: Time)
    requires Inv(s)
    ensures CancelTask(s, id, reason, now).Committed? <==> MayCancel(s, id)
    ensures CancelTask(s, id, reason, now).Committed? ==>
              id in s.tasks
              && exists s0 :: TaskCancelledIn(s, id, reason, s0) && id in s0.tasks
                              && Concluded(s0, s0.tasks[id], now, CancelTask(s, id, reason, now).ledger)
    ensures CancelTask(s, id, reason, now).Committed? ==>
              var s1 := CancelTask(s, id, reason, now).ledger;
              && id in s1.tasks && s1.tasks[id].status == TaskCancelled && s1.tasks[id].currentRun == s.tasks[id].currentRun
              && (s.tasks[id].currentRun.Some? ==>
                    var r := s.tasks[id].currentRun.value;
                    && r in s.runs && r in s1.runs && s1.runs == s.runs[r := s1.runs[r]]
                    && s1.runs[r].stop.Some? && s1.runs[r].tokenRevoked
                    && (s.runs[r].stop.Some? ==> s1.runs[r].stop == s.runs[r].stop)
                    && (s.runs[r].stop.None? ==> s1.runs[r].stop.value.reason == reason))
              && (s.tasks[id].currentRun.None? ==> s1.runs == s.runs)
  {
    hide InvExcept, Concluded, ReleaseSource, StopCurrentRun, CancelledRow, Conclude, MayCancel, LiveRunStopped;
    MayCancelMeans(s, id);
    if MayCancel(s, id) {
      CancelPath(s, id, reason, now);
      var s0 := CancelledState(s, id, reason);
      StoppedRuns(s, s.tasks[id], reason, s0);
    }
  }

  lemma MayCancelMeans(s: Ledger, id: TaskId)
    requires Inv(s)
    ensures MayCancel(s, id) <==>
              id in s.tasks && s.tasks[id].ActionAvailable()
              && ValidTaskTransition(s.tasks[id].origin.kind, s.tasks[id].status, TaskCancelled)
  {
    hide InvExcept, CurrentRunFits, NamesFit, PairFits, ResultFits;
    if id in s.tasks {
      TaskAt(s, {}, id);
    }
  }

  /** The state in which a cancelled task is concluded. */
  ghost function CancelledState(s: Ledger, id: TaskId, reason: string): Ledger
    requires Inv(s) && MayCancel(s, id)
  {
    ReleaseReleases(s, id);
    StopStops(s, ReleaseSource(s, s.tasks[id]).ledger, id, reason);
    var s2 := StopCurrentRun(ReleaseSource(s, s.tasks[id]).ledger, s.tasks[id], reason).ledger;
    PutTask(s2, CancelledRow(s2, s.tasks[id]))
  }

  lemma CancelPath(s: Ledger, id: TaskId, reason: string, now: Time)
    requires Inv(s) && MayCancel(s, id)
    ensures var s0 := CancelledState(s, id, reason);
            && TaskCancelledIn(s, id, reason, s0) && id in s0.tasks
            && CancelTask(s, id, reason, now).Committed?
            && Concluded(s0, s0.tasks[id], now, CancelTask(s, id, reason, now).ledger)
            && CancelTask(s, id, reason, now).ledger.runs == s0.runs
            && id in CancelTask(s, id, reason, now).ledger.tasks
            && CancelTask(s, id, reason, now).ledger.tasks[id] == s0.tasks[id]
  {
    hide InvExcept, Concluded, ReleaseSource, StopCurrentRun, CancelledRow, Conclude, LiveRunStopped, MayCancel;
    MayCancelMeans(s, id);
    TaskAt(s, {}, id);
    ReleaseReleases(s, id);
    StopStops(s, ReleaseSource(s, s.tasks[id]).ledger, id, reason);
    CancelledStateKeeps(s, id, reason);
    var s0 := CancelledState(s, id, reason);
    StopReadsRuns(s, s.tasks[id], reason, StopCurrentRun(ReleaseSource(s, s.tasks[id]).ledger, s.tasks[id], reason).ledger, s0);
    ConcludeConcludes(s0, {id}, s0.tasks[id], now);
    ConcludedRuns(s0, s0.tasks[id], now, Conclude(s0, s0.tasks[id], now).ledger);
    hide TaskOk;
  }

  lemma StopReadsRuns(s: Ledger, task: Task, reason: string, s1: Ledger, s2: Ledger)
    requires LiveRunStopped(s, task, reason, s1) && s2.runs == s1.runs && s2.nextId == s1.nextId
    ensures LiveRunStopped(s, task, reason, s2)
  {
  }

  lemma ConcludedRuns(s: Ledger, task: Task, now: Time, s1: Ledger)
    requires Concluded(s, task, now, s1)
    ensures s1.runs == s.runs
  {
    var s0 :| MessagesSettled(s, task, now, s0) && ParentIsTold(s0, task, now, s1);
    hide AddsMessage, WokenForMoved, MovedOrCancelled, RunsInTime;
  }

  lemma StoppedRuns(s: Ledger, task: Task, reason: string, s0: Ledger)
    requires LiveRunStopped(s, task, reason, s0)
    ensures task.currentRun.Some? ==>
              var r := task.currentRun.value;
              && r in s.runs && r in s0.runs && s0.runs == s.runs[r := s0.runs[r]]
              && s0.runs[r].stop.Some? && s0.runs[r].tokenRevoked
              && (s.runs[r].stop.Some? ==> s0.runs[r].stop == s.runs[r].stop)
              && (s.runs[r].stop.None? ==> s0.runs[r].stop.value.reason == reason)
    ensures task.currentRun.None? ==> s0.runs == s.runs
  {
  }

  lemma CancelledStateKeeps(s: Ledger, id: TaskId, reason: string)
    requires Inv(s) && MayCancel(s, id)
    ensures InvExcept(CancelledState(s, id, reason), {id})
  {
    hide InvExcept, TaskOk, PairFits, TaskMayBecome, ReleaseSource, StopCurrentRun, Detached, Stopped, CancelledRow, MayCancel;
    MayCancelMeans(s, id);
    var task := s.tasks[id];
    TaskAt(s, {}, id);
    ReleaseKeeps(s, task);
    var s1 := ReleaseSource(s, task).ledger;
    StopKeeps(s1, task, reason);
    var s2 := StopCurrentRun(s1, task, reason).ledger;
    DetachedStays(s1, s2, task);
    TaskAt(s2, {id}, id);
    CancelFits(s2, task);
    RowChange(s2, {id}, {id}, None, CancelledRow(s2, task));
  }

  // ---- closing ----

  /** A human's task that waits is completed without a result, and its parent is told. */
  lemma ConfirmationCompletes(s: Ledger, id: TaskId, now: Time)
    requires Inv(s)
    ensures CompleteTask(s, id, now).Committed? <==>
              id in s.tasks && s.tasks[id].status == TaskWaiting && s.tasks[id].origin.assignee == None
    ensures CompleteTask(s, id, now).Committed? ==>
              var row := s.tasks[id].(status := TaskCompleted, result := None, version := s.tasks[id].version + 1);
              ParentIsTold(s.(tasks := s.tasks[id := row]), row, now, CompleteTask(s, id, now).ledger)
  {
    hide InvExcept, NotifyParent, ParentIsTold, TaskOk, TaskMayBecome;
    if id in s.tasks {
      WaitingIsFree(s, id);
      if s.tasks[id].status == TaskWaiting && s.tasks[id].origin.assignee == None {
        var row := s.tasks[id].(status := TaskCompleted, result := None, version := s.tasks[id].version + 1);
        CompletedRowKeeps(s, id, row);
        NotifyTellsParent(PutTask(s, row), {}, row, now);
      }
    }
  }

  lemma WaitingIsFree(s: Ledger, id: TaskId)
    requires Inv(s) && id in s.tasks
    ensures s.tasks[id].id == id
    ensures s.tasks[id].status == TaskWaiting ==>
              s.tasks[id].currentRun.None? && s.tasks[id].pending.None? && s.tasks[id].link.None?
  {
    hide InvExcept, CurrentRunFits, NamesFit, PairFits, ResultFits;
    TaskAt(s, {}, id);
  }

  lemma CompletedRowKeeps(s: Ledger, id: TaskId, row: Task)
    requires Inv(s) && id in s.tasks && s.tasks[id].status == TaskWaiting && s.tasks[id].origin.assignee == None
    requires row == s.tasks[id].(status := TaskCompleted, result := None, version := s.tasks[id].version + 1)
    ensures row.id == id && Inv(PutTask(s, row))
  {
    hide InvExcept, TaskOk, TaskMayBecome;
    TaskAt(s, {}, id);
    WaitingIsFree(s, id);
    assert NoUnresolved(s, id) by {
      forall m | m in s.messages && s.messages[m].task == id
        ensures !s.messages[m].Unresolved()
      {
        MessageAt(s, {}, m);
      }
    }
    CompleteFits(s, s.tasks[id], row);
    hide NoUnresolved;
    RowChange(s, {}, {}, None, row);
  }

  /** A conversation that waits is completed, and its unresolved messages are cancelled where they are. */
  lemma CloseCancelsMessages(s: Ledger, id: TaskId)
    requires Inv(s)
    ensures CloseConversation(s, id).Committed? <==>
              id in s.tasks && s.tasks[id].status == TaskWaiting && s.tasks[id].origin.kind == TaskConversation
    ensures CloseConversation(s, id).Committed? ==>
              var s1 := CloseConversation(s, id).ledger; var was := s.tasks[id];
              && id in s1.tasks && s1 == s.(tasks := s.tasks[id := s1.tasks[id]], messages := s1.messages)
              && s1.tasks[id] == was.(status := TaskCompleted, version := was.version + 1)
              && s1.messages.Keys == s.messages.Keys
              && forall m :: m in s.messages ==>
                   var message := s.messages[m];
                   s1.messages[m] == if message.task == id && message.recipient.ToAgent?
                                        && (message.state == MessagePending || message.state == MessageDelivered)
                                     then message.(state := MessageCancelled, version := message.version + 1)
                                     else message
  {
    hide InvExcept;
    if id in s.tasks {
      WaitingIsFree(s, id);
      if s.tasks[id].origin.kind == TaskConversation {
        ConversationsOnlyWait(s, id);
      }
    }
  }

  lemma ConversationsOnlyWait(s: Ledger, id: TaskId)
    requires Inv(s) && id in s.tasks && s.tasks[id].origin.kind == TaskConversation
    ensures s.tasks[id].status != TaskSubmitted
  {
    hide InvExcept, CurrentRunFits, NamesFit, PairFits, ResultFits;
    TaskAt(s, {}, id);
  }

  /** The ref of a source is released once, by a closed task that nothing is done for any more. */
  lemma SourceIsReleasedOnce(s: Ledger, id: TaskId)
    requires Inv(s)
    ensures ReleaseSourceReference(s, id).Committed? <==>
              && id in s.tasks
              && (s.tasks[id].origin.source == None || s.tasks[id].sourceReleased
                  || ((s.tasks[id].status == TaskCompleted || s.tasks[id].status == TaskCancelled)
                      && s.tasks[id].currentRun == None && s.tasks[id].pending == None))
    ensures ReleaseSourceReference(s, id).Committed? ==>
              var s1 := ReleaseSourceReference(s, id).ledger; var was := s.tasks[id];
              && OnlyTask(s, id, s1)
              && s1.tasks[id] == if was.origin.source == None || was.sourceReleased then was
                                 else was.(sourceReleased := true, version := was.version + 1)
  {
    hide InvExcept;
    if id in s.tasks {
      WaitingIsFree(s, id);
      assert s.tasks[id := s.tasks[id]] == s.tasks;
    }
  }
}
