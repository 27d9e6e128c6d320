/** What the end of a run does to the run, to its task and to its messages, column by column
  (terminal.go, run.go and fsm.go in internal/core).
 */
module TerminalEffects {
  import opened Model
  import opened Tables
  import opened MessageSteps
  import opened RunSteps
  import opened Invariant
  import opened Evolution
  import opened MessageProofs
  import opened RunProofs

  // ---- backoff ----

  function Doubled(times: nat): nat {
    if times == 0 then 1 else 2 * Doubled(times - 1)
  }

  /** The backoff is one second for the first two retries, doubles with each further one, and stops at 32. */
  lemma BackoffDoubles(now: Time, retryCount: nat)
    ensures RetryAt(now, retryCount)
            == now + Doubled(if retryCount == 0 then 0 else if retryCount > 6 then 5 else retryCount - 1)
  {
    assert Doubled(0) == 1 && Doubled(1) == 2 && Doubled(2) == 4;
    assert Doubled(3) == 8 && Doubled(4) == 16;
    assert Doubled(5) == 32;
  }

  // ---- who may report an end ----

  /** A report about a launched run names its launch and its container; a run that was never launched can
    only be reported as failed. */
  predicate NamesEnd(run: Run, input: TerminalInput) {
    && input.generation == run.origin.generation && input.launchOperation == run.origin.launchOperation
    && if run.nonce.Some? then input.nonce == run.nonce && input.container == run.container
       else
         input.nonce == None && input.container == None && input.state == RunFailed
         && run.container == None && run.phase == LaunchIntent && (run.state == RunStarting || run.state == RunFailed)
  }

  predicate IsLive(state: RunState) {
    state == RunStarting || state == RunActive
  }

  /** Only a run that never became active can fail. An ended run accepts what it recorded, and nothing else. */
  lemma EndIsAcceptedExactly(s: Ledger, id: RunId, input: TerminalInput, now: Time)
    requires Inv(s)
    ensures RecordTerminal(s, id, input, now).Committed? <==>
              && !IsLive(input.state) && id in s.runs && NamesEnd(s.runs[id], input)
              && if IsLive(s.runs[id].state) then s.runs[id].state == RunActive ==> input.state != RunFailed
                 else
                   s.runs[id].state == input.state && s.runs[id].fact == input.fact
                   && (input.session == "" || input.session == s.runs[id].session)
    ensures id in s.runs && !IsLive(s.runs[id].state) && RecordTerminal(s, id, input, now).Committed? ==>
              RecordTerminal(s, id, input, now).ledger == s
  {
    hide InvExcept, ProjectTerminal, RunFits, TaskOk, Terminated;
    if id in s.runs {
      RunAt(s, {}, id);
      if s.runs[id].Live() && TerminalFence(s.runs[id], input) && ValidRunTransition(s.runs[id].state, input.state)
         && !IsLive(input.state) {
        TerminalCommits(s, id, input, now);
      }
    }
  }

  // ---- the run and its messages ----

  /** An undelivered message goes back to its task, to be delivered again later unless its budget is spent. */
  predicate Returned(was: Message, after: Message, run: RunId, now: Time) {
    if was.state == MessageDelivered && was.deliveredRun == Some(run) then
      after == was.(state := MessagePending, deliveredRun := None, version := was.version + 1,
                 nextAt := if was.max > 0 && was.count >= was.max then None else Some(RetryAt(now, was.count)))
    else after == was
  }

  ghost predicate AllReturned(s: Ledger, messages: map<MessageId, Message>, run: RunId, now: Time) {
    && messages.Keys == s.messages.Keys
    && forall m :: m in s.messages ==> Returned(s.messages[m], messages[m], run, now)
  }

  lemma RedeliveryReturns(s: Ledger, run: RunId, now: Time)
    ensures AllReturned(s, Redelivered(s.messages, run, now), run, now)
  {
  }

  // ---- the task ----

  /** A message obliges its task to run, and can be delivered. */
  predicate WakesTask(m: Message, task: TaskId) {
    m.task == task && m.recipient.ToAgent? && m.wake && m.state == MessagePending && m.nextAt.Some?
    && !(m.max > 0 && m.count >= m.max)
  }

  /** A task whose run waits is queued for the earliest of its pending wakes, but not before now, and waits
    exactly when there is none. */
  ghost predicate WaitsOrWakes(messages: map<MessageId, Message>, was: Task, after: Task, now: Time) {
    && after == was.(status := after.status, currentRun := None, nextRunAt := after.nextRunAt, version := was.version + 1)
    && if exists m :: m in messages && WakesTask(messages[m], was.id) then
         && after.status == TaskQueued && now <= after.nextRunAt
         && (forall m :: m in messages && WakesTask(messages[m], was.id) ==>
               after.nextRunAt <= Max(messages[m].nextAt.value, now))
         && (exists m :: m in messages && WakesTask(messages[m], was.id)
                         && after.nextRunAt == Max(messages[m].nextAt.value, now))
       else after.status == TaskWaiting && after.nextRunAt == was.nextRunAt
  }

  /** A run that ends without an outcome gives its task another run: for free when it was interrupted or
    timed out, otherwise while there are retries left; then the task fails. */
  predicate RetriesOrFails(was: Task, after: Task, state: RunState, now: Time) {
    var free := state == RunTimedOut || state == RunInterrupted;
    var granted := was.retryCount < was.origin.maxRetries;
    && after == was.(status := after.status, currentRun := None, retryCount := after.retryCount, nextRunAt := after.nextRunAt,
                  version := was.version + 1)
    && after.status == (if free || granted then TaskQueued else TaskFailed)
    && after.retryCount == (if !free && granted then was.retryCount + 1 else was.retryCount)
    && after.nextRunAt == (if free || granted then RetryAt(now, after.retryCount) else was.nextRunAt)
  }

  /** Where the end of its current run leaves a task. `messages` are those of the moment the task is looked
    at, with what the run did not acknowledge back on its task. */
  ghost predicate TaskSettled(
    messages: map<MessageId, Message>, was: Task, after: Task, outcome: Option<TaskOutcome>, state: RunState, now: Time
  ) {
    if was.status == TaskCancelled then after == was.(currentRun := None, version := was.version + 1)
    else if outcome == Some(OutcomeSubmit) then after == was
    else if outcome == Some(OutcomeFail) then
      after == was.(status := TaskFailed, currentRun := None, pending := None, version := was.version + 1)
    else if outcome == Some(OutcomeWait) then WaitsOrWakes(messages, was, after, now)
    else RetriesOrFails(was, after, state, now)
  }

  lemma EarliestWakeDecides(s: Ledger, run: Run, was: Task, input: TerminalInput, now: Time)
    requires was.status != TaskCancelled && run.outcome == Some(OutcomeWait)
    ensures WaitsOrWakes(s.messages, was, RowAfterEnd(s, run, was, input, now), now)
  {
    var s1 := Ended(s, run, input);
    var wake := WakeAt(s1, was.id);
    hide WakeAt;
    assert forall m :: m in s.messages ==>
      (WakesTask(s.messages[m], was.id) <==> s.messages[m].task == was.id && s.messages[m].PendingWake());
    if exists m :: m in s.messages && WakesTask(s.messages[m], was.id) {
      assert HasPendingWake(s1, was.id);
      WakeFound(s1, was.id);
    }
  }

  lemma RowAfterEndSettles(s: Ledger, run: Run, was: Task, input: TerminalInput, now: Time)
    ensures TaskSettled(s.messages, was, RowAfterEnd(s, run, was, input, now), run.outcome, input.state, now)
    ensures RowAfterEnd(s, run, was, input, now).id == was.id
  {
    hide WaitsOrWakes, WakeAt, RetryAt;
    if was.status != TaskCancelled && run.outcome == Some(OutcomeWait) {
      EarliestWakeDecides(s, run, was, input, now);
    }
  }

  /** The end of a live run records exactly what was reported, takes its token, returns its messages and
    settles its task; nothing else is written, unless the task failed and is concluded. */
  lemma EndSettles(s: Ledger, id: RunId, input: TerminalInput, now: Time)
    requires Inv(s) && id in s.runs && s.runs[id].Live() && RecordTerminal(s, id, input, now).Committed?
    ensures var s1 := RecordTerminal(s, id, input, now).ledger; var run := s.runs[id]; var t := run.origin.task;
            var returned := Redelivered(s.messages, id, now);
            && t in s.tasks && s.tasks[t].currentRun == Some(id) && t in s1.tasks
            && s1.runs == s.runs[id := run.(state := input.state, fact := input.fact, tokenRevoked := true,
                                            session := if input.session == "" then run.session else input.session,
                                            version := run.version + 1)]
            && AllReturned(s, returned, id, now)
            && TaskSettled(returned, s.tasks[t], s1.tasks[t], run.outcome, input.state, now)
            && (s1.tasks[t].status != TaskFailed ==>
                  s1 == s.(tasks := s.tasks[t := s1.tasks[t]], runs := s1.runs, messages := returned))
  {
    hide InvExcept, ProjectTerminal, RunOk, TaskOk, Evolves, TaskSettled, AllReturned, Redelivered, RowAfterEnd;
    var run := s.runs[id];
    var t := run.origin.task;
    var s0 := s.(messages := Redelivered(s.messages, id, now));
    TerminalCommits(s, id, input, now);
    RunAt(s, {}, id);
    TaskAt(s, {}, t);
    RedeliveryReturns(s, id, now);
    RowAfterEndSettles(s0, run, s.tasks[t], input, now);
    if RowAfterEnd(s0, run, s.tasks[t], input, now).status != TaskFailed {
      OnlyTheRows(s, id, input, now);
    }
  }

  /** Without a task that fails, nothing is concluded. */
  lemma OnlyTheRows(s: Ledger, id: RunId, input: TerminalInput, now: Time)
    requires Inv(s) && id in s.runs && s.runs[id].Live() && RecordTerminal(s, id, input, now).Committed?
    requires var t := s.runs[id].origin.task;
             t in s.tasks
             && RowAfterEnd(s.(messages := Redelivered(s.messages, id, now)), s.runs[id], s.tasks[t], input, now).status
                != TaskFailed
    ensures var s1 := RecordTerminal(s, id, input, now).ledger; var t := s.runs[id].origin.task;
            t in s1.tasks
            && s1 == s.(tasks := s.tasks[t := s1.tasks[t]], runs := s1.runs, messages := Redelivered(s.messages, id, now))
  {
    hide InvExcept, Redelivered, WakeAt, RunFits, CurrentRunFits, NamesFit, PairFits, PendingFits, KindFits, ResultFits,
         RuntimeFailed;
    var t := s.runs[id].origin.task;
    TaskAt(s, {}, t);
    RunAt(s, {}, id);
    var task := s.tasks[t];
    var s1 := Terminated(s, s.runs[id], input, now);
    assert s.tasks[t := task] == s.tasks;
    if task.status != TaskCancelled && task.generation == s.runs[id].origin.generation {
      ProjectOnlyTheRow(s1, task, s1.runs[id], WakeAt(s1, t), now);
    }
    hide ProjectTerminal;
  }

  lemma ProjectOnlyTheRow(s: Ledger, task: Task, run: Run, wake: Option<Time>, now: Time)
    requires task.id in s.tasks && s.tasks[task.id] == task && ProjectTerminal(s, task, run, wake, now).Committed?
    requires run.outcome != Some(OutcomeFail) && (run.outcome.None? ==> RuntimeFailed(task, run.state, now).status != TaskFailed)
    ensures var s1 := ProjectTerminal(s, task, run, wake, now).ledger;
            task.id in s1.tasks && s1 == s.(tasks := s.tasks[task.id := s1.tasks[task.id]])
  {
    hide Conclude;
    assert s.tasks[task.id := task] == s.tasks;
  }
}
