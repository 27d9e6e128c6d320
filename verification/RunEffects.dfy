/** What each operation on runs does, column by column: when it is accepted, which columns it writes,
  and that it writes nothing else.
 */
module RunEffects {
  import opened Commits
  import opened Model
  import opened Tables
  import opened MessageSteps
  import opened RunSteps
  import opened Invariant
  import opened MessageProofs
  import opened RunProofs

  // ---- frames ----

  /** Only this run row changed, in the named columns at most. */
  ghost predicate OnlyRun(s: Ledger, id: RunId, s1: Ledger) {
    id in s.runs && id in s1.runs && s1 == s.(runs := s.runs[id := s1.runs[id]])
  }

  /** Only this task row and this run row changed. */
  ghost predicate OnlyTaskAndRun(s: Ledger, task: TaskId, run: RunId, s1: Ledger) {
    && task in s1.tasks && run in s1.runs
    && s1 == s.(tasks := s.tasks[task := s1.tasks[task]], runs := s.runs[run := s1.runs[run]], nextId := s1.nextId)
  }

  // ---- claim ----

  /** Nothing keeps the agent busy: it has no live run, and none whose cleanup is still owed. */
  ghost predicate AgentIsFree(s: Ledger, agent: AgentId) {
    forall r :: r in s.runs && s.runs[r].origin.agent == agent ==>
      && s.runs[r].state != RunStarting && s.runs[r].state != RunActive
      && s.runs[r].cleanup != CleanupPending && s.runs[r].cleanup != CleanupBlocked
  }

  ghost predicate RoomForRun(s: Ledger) {
    |set r | r in s.runs && (s.runs[r].state == RunStarting || s.runs[r].state == RunActive)| < s.maxRuns
  }

  /** What the next run of a task waits for. */
  ghost predicate MayRun(s: Ledger, id: TaskId, now: Time) {
    && id in s.tasks && s.tasks[id].status == TaskQueued && s.tasks[id].currentRun == None
    && s.tasks[id].nextRunAt <= now
    && s.tasks[id].origin.project in s.projects && s.projects[s.tasks[id].origin.project].status == ProjectActive
    && s.tasks[id].origin.assignee.Some? && s.tasks[id].origin.assignee.value in s.agents
    && s.agents[s.tasks[id].origin.assignee.value] == AgentActive
    && AgentIsFree(s, s.tasks[id].origin.assignee.value)
    && RoomForRun(s)
  }

  lemma FreeMeansUnoccupied(s: Ledger, agent: AgentId)
    ensures Occupancy(s, agent) == 0 <==> AgentIsFree(s, agent)
  {
    var occupying := set r | r in s.runs && s.runs[r].origin.agent == agent && s.runs[r].OccupiesAgent();
    if AgentIsFree(s, agent) {
      assert occupying == {};
    } else {
      var r :| r in s.runs && s.runs[r].origin.agent == agent && s.runs[r].OccupiesAgent();
      assert r in occupying;
    }
  }

  lemma LiveRunsAreStartingOrActive(s: Ledger)
    ensures LiveRuns(s) == set r | r in s.runs && (s.runs[r].state == RunStarting || s.runs[r].state == RunActive)
  {
  }

  lemma ClaimableMeansMayRun(s: Ledger, id: TaskId, now: Time)
    ensures Claimable(s, id, now) <==> MayRun(s, id, now)
  {
    LiveRunsAreStartingOrActive(s);
    if id in s.tasks && s.tasks[id].origin.assignee.Some? {
      FreeMeansUnoccupied(s, s.tasks[id].origin.assignee.value);
    }
    hide AgentIsFree, Occupancy, LiveRuns;
  }

  /** A claim is accepted exactly for a task that may run. It gives the task its next generation and a new
    starting run of its agent, without any runtime fact and with nothing owed. */
  lemma ClaimGivesRun(s: Ledger, id: TaskId, now: Time)
    requires Inv(s)
    ensures Claim(s, id, now).Committed? <==> MayRun(s, id, now)
    ensures Claim(s, id, now).Committed? ==>
              var s1 := Claim(s, id, now).ledger; var was := s.tasks[id]; var r := s.nextId;
              && r !in s.runs && OnlyTaskAndRun(s, id, r, s1) && s1.nextId == s.nextId + 2
              && s1.tasks[id] == was.(generation := was.generation + 1, currentRun := Some(r), version := was.version + 1)
              && s1.runs[r].id == r && s1.runs[r].origin.project == was.origin.project && s1.runs[r].origin.task == id
              && Some(s1.runs[r].origin.agent) == was.origin.assignee
              && s1.runs[r].origin.generation == s1.tasks[id].generation && s1.runs[r].origin.launchOperation == r + 1
              && s1.runs[r].state == RunStarting && s1.runs[r].phase == LaunchIntent && !s1.runs[r].tokenRevoked
              && s1.runs[r].nonce == None && s1.runs[r].container == None && s1.runs[r].outcome == None
              && s1.runs[r].expectedHead == None && s1.runs[r].stop == None && s1.runs[r].session == ""
              && s1.runs[r].cleanup == CleanupNotNeeded && s1.runs[r].cleanupOperation == None
  {
    ClaimableMeansMayRun(s, id, now);
    hide Claimable, MayRun, InvExcept, RunFits;
    FreshId(s, {});
    if id in s.tasks {
      TaskAt(s, {}, id);
    }
    if Claimable(s, id, now) {
      ClaimableHas(s, id, now);
    }
  }

  lemma ClaimableHas(s: Ledger, id: TaskId, now: Time)
    requires Claimable(s, id, now)
    ensures id in s.tasks && s.tasks[id].origin.assignee.Some?
  {
    hide Occupancy, LiveRuns;
  }

  // ---- launch ----

  /** The fence every report about a launched run passes: it names this very launch, and the container
    once there is one. Only the report that creates the container may name one before. */
  ghost predicate NamesLaunch(run: Run, key: RuntimeKey) {
    && key.generation == run.origin.generation && key.launchOperation == run.origin.launchOperation
    && run.nonce == Some(key.nonce)
    && if run.container.Some? then key.container == run.container
       else key.container == None || (run.state == RunStarting && run.phase == LaunchIntent)
  }

  /** The task still waits for this very run to start. */
  ghost predicate StartsFor(s: Ledger, id: RunId) {
    && id in s.runs && s.runs[id].origin.task in s.tasks
    && var task := s.tasks[s.runs[id].origin.task];
    && task.status == TaskQueued && task.currentRun == Some(s.runs[id].id)
    && task.generation == s.runs[id].origin.generation
  }

  /** A launch intent is stored once, before anything was created for the run; storing it owes a cleanup.
    The same intent again changes nothing. */
  lemma LaunchIsStoredOnce(s: Ledger, id: RunId, generation: nat, nonce: nat, cleanup: OperationId)
    requires Inv(s)
    ensures BeginLaunch(s, id, generation, nonce, cleanup).Committed? <==>
              && StartsFor(s, id) && s.runs[id].origin.generation == generation
              && s.runs[id].state == RunStarting && s.runs[id].phase == LaunchIntent && s.runs[id].container == None
              && (s.runs[id].nonce.Some? ==> s.runs[id].nonce == Some(nonce) && s.runs[id].cleanupOperation == Some(cleanup))
    ensures BeginLaunch(s, id, generation, nonce, cleanup).Committed? ==>
              var s1 := BeginLaunch(s, id, generation, nonce, cleanup).ledger; var was := s.runs[id];
              && OnlyRun(s, id, s1)
              && if was.nonce.Some? then s1.runs[id] == was
                 else s1.runs[id] == was.(nonce := Some(nonce), cleanupOperation := Some(cleanup), cleanup := CleanupPending,
                                          version := was.version + 1)
  {
    hide InvExcept, RunFits;
    if id in s.runs {
      RunAt(s, {}, id);
      assert s.runs[id := s.runs[id]] == s.runs;
    }
  }

  /** The container is recorded by the first report that names one, in phase intent; a later report of the
    same launch changes nothing. */
  lemma ContainerIsRecordedOnce(s: Ledger, id: RunId, key: RuntimeKey)
    requires Inv(s)
    ensures RecordContainerCreated(s, id, key).Committed? <==>
              && key.container.Some? && id in s.runs && NamesLaunch(s.runs[id], key)
              && (s.runs[id].phase == LaunchIntent ==> s.runs[id].state == RunStarting)
    ensures RecordContainerCreated(s, id, key).Committed? ==>
              var s1 := RecordContainerCreated(s, id, key).ledger; var was := s.runs[id];
              && OnlyRun(s, id, s1)
              && s1.runs[id] == if was.phase != LaunchIntent then was
                                else was.(container := key.container, phase := LaunchCreated, version := was.version + 1)
  {
    hide InvExcept;
    if id in s.runs {
      RunAt(s, {}, id);
      assert s.runs[id := s.runs[id]] == s.runs;
    }
  }

  /** The start is recorded once the container exists, and once. */
  lemma StartIsRecordedOnce(s: Ledger, id: RunId, key: RuntimeKey)
    requires Inv(s)
    ensures RecordStartIssued(s, id, key).Committed? <==>
              && id in s.runs && NamesLaunch(s.runs[id], key)
              && (s.runs[id].phase == LaunchStartIssued || s.runs[id].phase == LaunchProcessObserved
                  || (s.runs[id].phase == LaunchCreated && s.runs[id].state == RunStarting))
    ensures RecordStartIssued(s, id, key).Committed? ==>
              var s1 := RecordStartIssued(s, id, key).ledger; var was := s.runs[id];
              && OnlyRun(s, id, s1)
              && s1.runs[id] == if was.phase != LaunchCreated then was
                                else was.(phase := LaunchStartIssued, version := was.version + 1)
  {
    hide InvExcept;
    if id in s.runs {
      RunAt(s, {}, id);
      assert s.runs[id := s.runs[id]] == s.runs;
    }
  }

  /** Run and task start running together, once the start was issued and while the task still waits for
    this run. */
  lemma ActivationStartsBoth(s: Ledger, id: RunId, key: RuntimeKey)
    requires Inv(s)
    ensures Activate(s, id, key).Committed? <==>
              && id in s.runs && NamesLaunch(s.runs[id], key)
              && (s.runs[id].state == RunActive
                  || (s.runs[id].state == RunStarting && s.runs[id].phase == LaunchStartIssued && StartsFor(s, id)))
    ensures Activate(s, id, key).Committed? ==>
              var s1 := Activate(s, id, key).ledger; var was := s.runs[id]; var t := was.origin.task;
              if was.state == RunActive then s1 == s
              else
                && t in s.tasks && OnlyTaskAndRun(s, t, id, s1) && s1.nextId == s.nextId
                && s1.runs[id] == was.(state := RunActive, phase := LaunchProcessObserved, version := was.version + 1)
                && s1.tasks[t] == s.tasks[t].(status := TaskRunning, version := s.tasks[t].version + 1)
  {
    hide InvExcept, TaskOk;
    if id in s.runs {
      RunAt(s, {}, id);
      TaskAt(s, {}, s.runs[id].origin.task);
    }
  }

  /** A live run learns one session; nothing else about it changes. */
  lemma SessionIsRecordedOnce(s: Ledger, id: RunId, key: RuntimeKey, session: string)
    requires Inv(s)
    ensures RecordSession(s, id, key, session).Committed? <==>
              && session != "" && id in s.runs && NamesLaunch(s.runs[id], key)
              && (s.runs[id].state == RunStarting || s.runs[id].state == RunActive)
              && (s.runs[id].session == "" || s.runs[id].session == session)
    ensures RecordSession(s, id, key, session).Committed? ==>
              var s1 := RecordSession(s, id, key, session).ledger; var was := s.runs[id];
              && OnlyRun(s, id, s1)
              && s1.runs[id] == if was.session == session then was else was.(session := session, version := was.version + 1)
  {
    hide InvExcept, RunFits;
    if id in s.runs {
      RunAt(s, {}, id);
      assert s.runs[id := s.runs[id]] == s.runs;
    }
  }

  /** Only an active run has a heartbeat, and it only touches the version. */
  lemma HeartbeatNeedsActive(s: Ledger, id: RunId, key: RuntimeKey)
    requires Inv(s)
    ensures RecordHeartbeat(s, id, key).Committed? <==>
              id in s.runs && NamesLaunch(s.runs[id], key) && s.runs[id].state == RunActive
    ensures RecordHeartbeat(s, id, key).Committed? ==>
              var s1 := RecordHeartbeat(s, id, key).ledger;
              OnlyRun(s, id, s1) && s1.runs[id] == s.runs[id].(version := s.runs[id].version + 1)
  {
    hide InvExcept;
    if id in s.runs {
      RunAt(s, {}, id);
    }
  }

  // ---- cleanup and stop ----

  /** A cleanup that is owed may be blocked and owed again, and is done only after the run ended; reporting
    a state that holds already changes nothing, except that a blocked cleanup may name a new error only
    after it was owed again. */
  lemma CleanupFollowsItsRun(
    s: Ledger, id: RunId, key: RuntimeKey, operation: OperationId, next: CleanupState, lastError: string
  )
    requires Inv(s)
    ensures RecordCleanup(s, id, key, operation, next, lastError).Committed? <==>
              && id in s.runs && NamesLaunch(s.runs[id], key) && s.runs[id].cleanupOperation == Some(operation)
              && match next
                 case CleanupNotNeeded => false
                 case CleanupPending => s.runs[id].cleanup != CleanupRemoved
                 case CleanupBlocked =>
                   s.runs[id].cleanup == CleanupPending
                   || (s.runs[id].cleanup == CleanupBlocked && s.runs[id].fact.lastError == lastError)
                 case CleanupRemoved =>
                   s.runs[id].cleanup == CleanupRemoved
                   || (s.runs[id].cleanup == CleanupPending && s.runs[id].state != RunStarting && s.runs[id].state != RunActive)
    ensures RecordCleanup(s, id, key, operation, next, lastError).Committed? ==>
              var s1 := RecordCleanup(s, id, key, operation, next, lastError).ledger; var was := s.runs[id];
              && OnlyRun(s, id, s1) && s1.runs[id].cleanup == next
              && s1.runs[id] == (if was.cleanup == next then was
                                 else was.(cleanup := next, version := was.version + 1,
                                           fact := was.fact.(lastError := if next == CleanupBlocked then lastError
                                                                          else was.fact.lastError)))
  {
    hide InvExcept;
    if id in s.runs {
      RunAt(s, {}, id);
      assert s.runs[id := s.runs[id]] == s.runs;
    }
  }

  /** A live run takes a stop, and the same one again. */
  lemma StopIsAcceptedExactly(s: Ledger, id: RunId, reason: string, operation: Option<OperationId>)
    ensures RequestStop(s, id, reason, operation).Committed? <==>
              && id in s.runs && (s.runs[id].state == RunStarting || s.runs[id].state == RunActive)
              && (s.runs[id].stop.Some? ==>
                    s.runs[id].stop.value.reason == reason
                    && (operation == None || operation == Some(s.runs[id].stop.value.operation)))
  {
  }

  /** The first stop is stored, under the operation it was asked for or a new one, and takes the token; it is
    kept from then on. */
  lemma FirstStopCounts(s: Ledger, id: RunId, reason: string, operation: Option<OperationId>)
    requires Inv(s) && RequestStop(s, id, reason, operation).Committed?
    ensures id in s.runs
    ensures s.runs[id].stop.Some? ==> RequestStop(s, id, reason, operation).ledger == s && s.runs[id].tokenRevoked
    ensures s.runs[id].stop.None? ==>
              var was := s.runs[id]; var stop := Stop(reason, if operation.Some? then operation.value else s.nextId);
              RequestStop(s, id, reason, operation).ledger
              == s.(runs := s.runs[id := was.(stop := Some(stop), tokenRevoked := true, version := was.version + 1)],
                    nextId := s.nextId + 1)
  {
    hide InvExcept;
    RunAt(s, {}, id);
  }

  // ---- outcome ----

  /** The run may act for its task: it is active, holds its token, and is the current run of a running task. */
  ghost predicate MayAct(s: Ledger, id: RunId) {
    && id in s.runs && s.runs[id].state == RunActive && !s.runs[id].tokenRevoked
    && s.runs[id].origin.task in s.tasks
    && var task := s.tasks[s.runs[id].origin.task];
    && task.status == TaskRunning && task.currentRun == Some(id)
    && task.generation == s.runs[id].origin.generation && task.origin.assignee == Some(s.runs[id].origin.agent)
  }

  /** An outcome is accepted once, from a run that may act and for the very rows it was decided on. It ends
    the run's authority and finishes the task; a submit freezes the head that will be captured. */
  lemma OutcomeFinishesTask(s: Ledger, id: RunId, outcome: TaskOutcome, seenTask: Task, seenRun: Run, head: Commit)
    requires Inv(s)
    ensures ApplyOutcome(s, id, outcome, seenTask, seenRun, head).Committed? <==>
              && MayAct(s, id)
              && var task := s.tasks[s.runs[id].origin.task];
              && task.version == seenTask.version && seenTask.status == TaskRunning
              && s.runs[id].version == seenRun.version && seenRun.state == RunActive
              && !(task.origin.kind == TaskConversation && outcome == OutcomeSubmit)
    ensures ApplyOutcome(s, id, outcome, seenTask, seenRun, head).Committed? ==>
              var s1 := ApplyOutcome(s, id, outcome, seenTask, seenRun, head).ledger;
              var was := s.runs[id]; var t := was.origin.task; var submit := outcome == OutcomeSubmit;
              && t in s.tasks && OnlyTaskAndRun(s, t, id, s1) && s1.nextId == s.nextId + (if submit then 1 else 0)
              && s1.runs[id] == was.(outcome := Some(outcome), expectedHead := if submit then Some(head) else None,
                                     tokenRevoked := true, version := was.version + 1)
              && s1.tasks[t] == s.tasks[t].(status := TaskFinishing, pending := s1.tasks[t].pending,
                                            version := s.tasks[t].version + 1)
              && (s1.tasks[t].pending.Some? <==> submit)
              && (submit ==>
                    && s1.tasks[t].pending.value.action == Capture && s1.tasks[t].pending.value.run == id
                    && s1.tasks[t].pending.value.expected == head && s1.tasks[t].pending.value.target == None
                    && s1.tasks[t].pending.value.id == s.nextId
                    && s1.tasks[t].pending.value.version == s1.tasks[t].version)
  {
    hide InvExcept, CurrentRunFits, NamesFit, PairFits, KindFits, ResultFits, RunFits;
    if id in s.runs {
      RunAt(s, {}, id);
      TaskAt(s, {}, s.runs[id].origin.task);
    }
  }
}
