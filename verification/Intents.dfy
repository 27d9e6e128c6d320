/** Git intents: the fences accept exactly the row the reconciler read, every intent can be
  projected, and each takes effect once.
 */
module Intents {
  import opened Commits
  import opened Model
  import opened Tables
  import opened RunSteps
  import opened TaskSteps
  import opened GitSteps
  import opened System
  import opened Invariant
  import opened Evolution
  import opened RunProofs
  import opened GitProofs
  import opened AdvanceProofs
  import opened Safety

  /** Every intent the reconciler ever read is an earlier version of a row that still exists. */
  lemma IntentsArePast(s: Ledger, intent: Task)
    requires Reachable(s) && intent in s.intents
    ensures intent.id in s.tasks && TaskEvolves(intent, s.tasks[intent.id])
  {
    hide Inv, RunAll, TasksEvolve, RunsEvolve, MessagesEvolve, SettingsEvolve;
    var maxRuns: nat, events: seq<Event> :| s == RunAll(Empty(maxRuns), events);
    EmptyHolds(maxRuns);
    RunsKeep(Empty(maxRuns), events);
  }

  ghost predicate PendingCapture(s: Ledger, k: TaskId) {
    && k in s.tasks && s.tasks[k].pending.Some? && s.tasks[k].pending.value.action == Capture
    && s.tasks[k].pending.value.run in s.runs && !s.runs[s.tasks[k].pending.value.run].Live()
  }

  /** A capture intent never goes stale while its task waits for it. */
  lemma CaptureFenceHolds(s: Ledger, k: TaskId)
    requires Inv(s) && PendingCapture(s, k)
    ensures SameCaptureFence(s.tasks[k], s.runs[s.tasks[k].pending.value.run], s.tasks[k])
  {
    hide InvExcept, NamesFit, PairFits, KindFits, ResultFits;
    TaskAt(s, {}, k);
    RunAt(s, {}, s.tasks[k].pending.value.run);
  }

  /** sameCaptureFence accepts exactly the unchanged row of an ended run. */
  lemma CaptureFenceIsExact(s: Ledger, intent: Task)
    requires Reachable(s) && intent in s.intents && intent.pending.Some? && intent.pending.value.action == Capture
    requires intent.pending.value.run in s.runs
    ensures intent.id in s.tasks
    ensures SameCaptureFence(s.tasks[intent.id], s.runs[intent.pending.value.run], intent) <==>
              s.tasks[intent.id] == intent && !s.runs[intent.pending.value.run].Live()
  {
    hide InvExcept, Reachable;
    ReachableHolds(s);
    IntentsArePast(s, intent);
    IntentAt(s, intent);
    if s.tasks[intent.id] == intent && !s.runs[intent.pending.value.run].Live() {
      CaptureFenceHolds(s, intent.id);
    }
  }

  /** sameAdvanceFence accepts exactly the unchanged row. */
  lemma AdvanceFenceIsExact(s: Ledger, intent: Task)
    requires Reachable(s) && intent in s.intents && intent.pending.Some? && intent.pending.value.action == Advance
    ensures intent.id in s.tasks
    ensures SameAdvanceFence(s.tasks[intent.id], intent) <==> s.tasks[intent.id] == intent
  {
    hide InvExcept, Reachable, KindFits, StatusFits, ResultFits;
    ReachableHolds(s);
    IntentsArePast(s, intent);
    IntentAt(s, intent);
  }

  ghost predicate CaptureReported(s: Ledger, fact: GitFact) {
    && fact in s.facts && fact.CaptureFact?
    && fact.intent.id in s.tasks && s.tasks[fact.intent.id] == fact.intent
    && fact.run in s.runs && !s.runs[fact.run].Live()
    && ProjectIsActive(s, fact.intent.origin.project)
  }

  ghost predicate Submitted(s: Ledger, k: TaskId, result: Result) {
    k in s.tasks && s.tasks[k].status == TaskSubmitted && s.tasks[k].result == Some(result) && s.tasks[k].currentRun.None?
  }

  ghost predicate Overtaken(s: Ledger, intent: Task) {
    && intent.id in s.tasks && !SameAdvanceFence(s.tasks[intent.id], intent)
    && forall run :: run in s.runs ==> !SameCaptureFence(s.tasks[intent.id], s.runs[run], intent)
  }

  /** A consumed or overtaken intent passes no fence in any later state. */
  lemma OvertakenForever(s: Ledger, intent: Task, events: seq<Event>)
    requires Inv(s) && intent.id in s.tasks && intent.pending.Some?
    requires intent.pending.value.version < s.tasks[intent.id].version
    ensures Overtaken(RunAll(s, events), intent)
  {
    hide Inv, RunAll, RunsEvolve, MessagesEvolve, SettingsEvolve, GitEvolves;
    RunsKeep(s, events);
  }

  /** A reported capture of a row that is still pending becomes its submitted result, and does
    so once: no later projection of the same intent passes the fence again. */
  lemma CaptureIsConsumedOnce(s: Ledger, fact: GitFact, canonical: Commit, now: Time, events: seq<Event>)
    requires Reachable(s) && CaptureReported(s, fact)
    ensures FinalizeCapture(s, fact, canonical, now).Committed?
    ensures var s1 := FinalizeCapture(s, fact, canonical, now).ledger;
            Submitted(s1, fact.intent.id, Result(fact.head, fact.run, TaskRef(fact.intent.id, fact.run)))
            && Overtaken(RunAll(s1, events), fact.intent)
  {
    hide InvExcept, Reachable, FinalizeCapture, RunAll, TaskFits, SameAdvanceFence;
    ReachableHolds(s);
    FactAt(s, {}, fact);
    PendingIsCurrent(s, fact.intent.id);
    CaptureFenceHolds(s, fact.intent.id);
    FinalizeCaptureCommits(s, fact, canonical, now);
    OvertakenForever(FinalizeCapture(s, fact, canonical, now).ledger, fact.intent, events);
  }

  ghost predicate CaptureFailureReported(s: Ledger, fact: GitFact) {
    && fact in s.facts && fact.CaptureFailure?
    && fact.intent.id in s.tasks && s.tasks[fact.intent.id] == fact.intent
    && fact.run in s.runs && !s.runs[fact.run].Live()
  }

  /** A reported failure gives the task another run while its retries last, and fails it then. */
  lemma CaptureFailureIsConsumedOnce(s: Ledger, fact: GitFact, now: Time, events: seq<Event>)
    requires Reachable(s) && CaptureFailureReported(s, fact)
    ensures ProjectCaptureFailure(s, fact, now).Committed?
    ensures var s1 := ProjectCaptureFailure(s, fact, now).ledger; var k := fact.intent.id;
            && k in s1.tasks
            && s1.tasks[k].status == (if !fact.fatal && fact.intent.retryCount < fact.intent.origin.maxRetries
                                      then TaskQueued else TaskFailed)
            && s1.tasks[k].pending.None? && s1.tasks[k].currentRun.None?
            && s1.tasks[k].retryCount <= fact.intent.origin.maxRetries
            && Overtaken(RunAll(s1, events), fact.intent)
  {
    hide InvExcept, Reachable, ProjectCaptureFailure, RunAll, SameAdvanceFence, PendingFits, KindFits, ResultFits,
         NamesFit, PairFits, CurrentRunFits;
    ReachableHolds(s);
    FactAt(s, {}, fact);
    TaskAt(s, {}, fact.intent.id);
    PendingIsCurrent(s, fact.intent.id);
    CaptureFenceHolds(s, fact.intent.id);
    CaptureFailureCommits(s, fact, now);
    OvertakenForever(ProjectCaptureFailure(s, fact, now).ledger, fact.intent, events);
  }

  lemma PendingIsCurrent(s: Ledger, k: TaskId)
    requires Inv(s) && k in s.tasks && s.tasks[k].pending.Some?
    ensures s.tasks[k].pending.value.version == s.tasks[k].version
    ensures s.tasks[k].pending.value.action == Advance <==> s.tasks[k].status == TaskSubmitted
    ensures s.tasks[k].id == k
  {
    hide InvExcept, NamesFit, PairFits, CurrentRunFits, KindFits, ResultFits;
    TaskAt(s, {}, k);
  }

  ghost predicate AdvanceReported(s: Ledger, fact: GitFact) {
    && fact in s.facts && fact.AdvanceFact?
    && fact.intent.id in s.tasks && s.tasks[fact.intent.id] == fact.intent
    && ProjectIsActive(s, fact.intent.origin.project)
  }

  /** Where a projected advance leaves its task. */
  ghost predicate Advanced(s: Ledger, fact: GitFact)
    requires fact.AdvanceFact?
  {
    && fact.intent.id in s.tasks
    && var row := s.tasks[fact.intent.id];
    && row.pending.None?
    && if fact.outcome != AdvanceStale then
         row.status == TaskCompleted && row.finalCanonical == Some(fact.actual) && row.result == fact.intent.result
       else if row.origin.kind == TaskIntegration then row.status == TaskQueued
       else
         row.status == TaskSubmitted && row.link.Some? && IsOpenIntegrationOf(s, row.link.value, row.id)
         && row.result.Some?
         && var origin := s.tasks[row.link.value].origin;
         && origin.base == Some(fact.actual) && origin.source == Some(Source(row.id, row.result.value))
         && origin.assignee == row.accepted && origin.priority == row.origin.priority
         && origin.maxRetries == row.origin.maxRetries && origin.project == row.origin.project
  }

  /** A reported advance of a row that is still pending completes it, or opens or restarts its
    integration, and does so once. */
  lemma AdvanceIsConsumedOnce(s: Ledger, fact: GitFact, now: Time, events: seq<Event>)
    requires Reachable(s) && AdvanceReported(s, fact)
    ensures var tx := if fact.outcome == AdvanceStale then FinalizeStale(s, fact, now) else FinalizeSuccess(s, fact, now);
            tx.Committed? && Advanced(tx.ledger, fact) && Overtaken(RunAll(tx.ledger, events), fact.intent)
  {
    hide InvExcept, Reachable, FinalizeStale, FinalizeSuccess, RunAll, TaskFits, SameCaptureFence, Overtaken;
    ReachableHolds(s);
    FactAt(s, {}, fact);
    PendingIsCurrent(s, fact.intent.id);
    if fact.outcome == AdvanceStale {
      FinalizeStaleCommits(s, fact, now);
      OvertakenForever(FinalizeStale(s, fact, now).ledger, fact.intent, events);
    } else {
      FinalizeSuccessCommits(s, fact, now);
      OvertakenForever(FinalizeSuccess(s, fact, now).ledger, fact.intent, events);
    }
  }
}
