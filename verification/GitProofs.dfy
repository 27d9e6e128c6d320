/** Git observations and effects, and their projections into the tables, keep the invariant. */
module GitProofs {
  import opened Commits
  import opened Model
  import opened Tables
  import opened MessageSteps
  import opened RunSteps
  import opened TaskSteps
  import opened GitSteps
  import opened Invariant
  import opened RowChanges
  import opened Evolution
  import opened MessageProofs
  import opened RunProofs
  import opened TaskProofs
  import opened Disposal

  // ---- settings: projects, agents, refs, intents and facts ----

  /** Everything but tasks, runs and messages may change, as far as the tasks' names still fit. */
  ghost predicate SettingsMayBecome(s: Ledger, s1: Ledger) {
    && s1 == s.(projects := s1.projects, agents := s1.agents, canonical := s1.canonical, refs := s1.refs,
                intents := s1.intents, facts := s1.facts, nextId := s1.nextId)
    && SettingsEvolve(s, s1) && GitEvolves(s, s1)
    && (forall k :: k in s1.projects ==> k < s1.nextId)
    && (forall k :: k in s1.agents ==> k < s1.nextId)
    && (forall k :: k in s1.canonical ==> k < s1.nextId)
    && GitOk(s1) && ProjectsOk(s1)
  }

  lemma ProjectsStay(s: Ledger, e: set<TaskId>, s1: Ledger)
    requires InvExcept(s, e) && s1.projects == s.projects && s1.canonical == s.canonical && s.nextId <= s1.nextId
    ensures ProjectsOk(s1)
  {
    hide IdsOk, TasksOk, RunsOk, MessagesOk, OneConversation, OneGeneration, OneLiveRun, RunLimitOk, ProjectsOk, GitOk;
    ProjectsKept(s, s1);
  }

  lemma RowsFit(s: Ledger, e: set<TaskId>)
    requires InvExcept(s, e)
    ensures forall k :: k in s.tasks ==> NamesFit(s, s.tasks[k])
    ensures MessagesWithin(s, s, e)
  {
    hide InvExcept;
    forall k | k in s.tasks
      ensures NamesFit(s, s.tasks[k])
    {
      TaskAt(s, e, k);
    }
    forall k | k in s.messages
      ensures MessageOk(s, e, s.messages[k])
    {
      MessageAt(s, e, k);
    }
  }

  lemma SettingsChange(s: Ledger, s1: Ledger, e: set<TaskId>)
    requires InvExcept(s, e) && SettingsMayBecome(s, s1)
    requires forall k :: k in s.tasks ==> NamesFit(s1, s.tasks[k])
    ensures InvExcept(s1, e) && Evolves(s, s1)
  {
    hide NamesFit, MessageOk, TasksOk, RunsOk, OneConversation, OneGeneration, OneLiveRun, RunLimitOk, ProjectsOk, GitOk, Evolves;
    RowsFit(s, e);
    assert IdsOk(s1);
    SettingsEvolves(s, s1);
    OtherTablesChange(s, s1, e, e);
  }

  lemma SettingsEvolves(s: Ledger, s1: Ledger)
    requires SettingsMayBecome(s, s1)
    ensures Evolves(s, s1)
  {
    hide GitOk, GitEvolves, SettingsEvolve, NamesFit;
    OthersReflexive(s);
  }

  lemma CanonicalMoves(s: Ledger, s1: Ledger, e: set<TaskId>, p: ProjectId, after: Commit)
    requires InvExcept(s, e) && p in s.canonical && IsAncestor(s.canonical[p], after)
    requires s1 == s.(canonical := s.canonical[p := after])
    ensures SettingsMayBecome(s, s1)
    ensures forall k :: k in s.tasks ==> NamesFit(s1, s.tasks[k])
  {
    hide TasksOk, RunsOk, MessagesOk, OneConversation, OneGeneration, OneLiveRun, RunLimitOk, TaskFits, CapturedAncestry;
    forall c: Commit | IsAncestor(c, s.canonical[p])
      ensures IsAncestor(c, after)
    {
      AncestorTransitive(c, s.canonical[p], after);
    }
    RowsFit(s, e);
    hide IsAncestor, ProjectFits;
    forall k | k in s1.projects
      ensures ProjectOk(s1, k)
    {
      ProjectAt(s, e, k);
    }
  }

  lemma FastForwardKeeps(s: Ledger, project: ProjectId, after: Commit)
    requires Inv(s) && FastForward(s, project, after).Committed?
    ensures Kept(s, FastForward(s, project, after).ledger)
  {
    hide InvExcept, Evolves, SettingsMayBecome, NamesFit;
    CanonicalMoves(s, FastForward(s, project, after).ledger, {}, project, after);
    SettingsChange(s, FastForward(s, project, after).ledger, {});
  }

  /** New intents and facts of their own kind. */
  lemma GitNotesKeep(s: Ledger, s1: Ledger)
    requires Inv(s) && s1 == s.(refs := s1.refs, intents := s1.intents, facts := s1.facts)
    requires s.intents <= s1.intents && s.facts <= s1.facts
    requires forall t :: t in s1.intents - s.intents ==> IntentOk(s, t) && s.tasks[t.id] == t
    requires forall f :: f in s1.facts - s.facts ==> FactOk(s, f)
    ensures Kept(s, s1)
  {
    hide IsAncestor, CapturedAncestry, TaskFits, TasksOk, RunsOk, MessagesOk, OneConversation, OneGeneration, OneLiveRun,
         RunLimitOk, ProjectsOk, NamesFit, Evolves;
    RowsFit(s, {});
    forall k | k in s.tasks
      ensures NamesFit(s1, s.tasks[k])
    {
      NamesReadNoNotes(s, s1, k);
    }
    forall t | t in s1.intents
      ensures IntentOk(s1, t)
    {
      assert t in s.intents || t in s1.intents - s.intents;
      assert IntentOk(s, t);
    }
    forall f | f in s1.facts
      ensures FactOk(s1, f)
    {
      assert f in s.facts || f in s1.facts - s.facts;
      assert FactOk(s, f);
    }
    forall t | t in s1.intents && t !in s.intents
      ensures t.id in s1.tasks && TaskEvolves(t, s1.tasks[t.id])
    {
      assert t in s1.intents - s.intents;
    }
    assert GitEvolves(s, s1) by { SelfAncestor(s); }
    ProjectsStay(s, {}, s1);
    SettingsChange(s, s1, {});
  }

  lemma SelfAncestor(s: Ledger)
    ensures forall p :: p in s.canonical ==> IsAncestor(s.canonical[p], s.canonical[p])
  {
  }

  lemma NamesReadNoNotes(s: Ledger, s1: Ledger, k: TaskId)
    requires s1 == s.(refs := s1.refs, intents := s1.intents, facts := s1.facts) && k in s.tasks && NamesFit(s, s.tasks[k])
    ensures NamesFit(s1, s.tasks[k])
  {
  }

  lemma ReadIntentKeeps(s: Ledger, id: TaskId)
    requires Inv(s) && ReadIntent(s, id).Committed?
    ensures Kept(s, ReadIntent(s, id).ledger)
  {
    hide InvExcept, Evolves, TaskFits;
    TaskAt(s, {}, id);
    GitNotesKeep(s, ReadIntent(s, id).ledger);
  }

  lemma WriteTaskRefKeeps(s: Ledger, intent: Task)
    requires Inv(s) && WriteTaskRef(s, intent).Committed?
    ensures Kept(s, WriteTaskRef(s, intent).ledger)
  {
    hide InvExcept, Evolves, CapturedAncestry;
    GitNotesKeep(s, WriteTaskRef(s, intent).ledger);
  }

  lemma DropTaskRefKeeps(s: Ledger, ref: TaskRef)
    requires Inv(s)
    ensures Kept(s, DropTaskRef(s, ref).ledger)
  {
    hide InvExcept, Evolves;
    GitNotesKeep(s, DropTaskRef(s, ref).ledger);
  }

  lemma ReportKeeps(s: Ledger, fact: GitFact)
    requires Inv(s) && FactOk(s, fact)
    ensures Kept(s, s.(facts := s.facts + {fact}))
  {
    hide InvExcept, Evolves, FactOk;
    GitNotesKeep(s, s.(facts := s.facts + {fact}));
  }

  lemma AdvanceCanonicalKeeps(s: Ledger, intent: Task, after: Commit, outcome: AdvanceOutcome, actual: Commit)
    requires Inv(s) && AdvanceCanonical(s, intent, after, outcome, actual).Committed?
    ensures Kept(s, AdvanceCanonical(s, intent, after, outcome, actual).ledger)
  {
    hide InvExcept, Evolves, SettingsMayBecome, NamesFit;
    var project := intent.origin.project;
    var s1 := s.(canonical := s.canonical[project := after]);
    CanonicalMoves(s, s1, {}, project, after);
    SettingsChange(s, s1, {});
    IntentAt(s, intent);
    assert FactOk(s1, AdvanceFact(intent, outcome, actual));
    ReportKeeps(s1, AdvanceFact(intent, outcome, actual));
    hide FactOk;
    KeptTransitive(s, s1, s1.(facts := s1.facts + {AdvanceFact(intent, outcome, actual)}));
  }

  lemma IntentAt(s: Ledger, intent: Task)
    requires Inv(s) && intent in s.intents
    ensures IntentOk(s, intent)
    ensures intent.pending.Some? && intent.pending.value.action == Advance ==>
              intent.result.Some? && intent.pending.value.target == Some(intent.result.value.head)
  {
    hide IdsOk, TasksOk, RunsOk, MessagesOk, OneConversation, OneGeneration, OneLiveRun, RunLimitOk, ProjectsOk, FactOk;
  }

  lemma FactAt(s: Ledger, e: set<TaskId>, fact: GitFact)
    requires InvExcept(s, e) && fact in s.facts
    ensures FactOk(s, fact) && IntentOk(s, fact.intent)
  {
    hide IdsOk, TasksOk, RunsOk, MessagesOk, OneConversation, OneGeneration, OneLiveRun, RunLimitOk, ProjectsOk, TaskFits, IsAncestor;
  }

  lemma ReportCaptureKeeps(s: Ledger, intent: Task)
    requires Inv(s) && ReportCapture(s, intent).Committed?
    ensures Kept(s, ReportCapture(s, intent).ledger)
  {
    hide InvExcept, Evolves, CapturedAncestry;
    ReportKeeps(s, CaptureFact(intent, intent.pending.value.run, intent.pending.value.expected));
  }

  lemma ReportCaptureFailureKeeps(s: Ledger, intent: Task, fatal: bool)
    requires Inv(s) && ReportCaptureFailure(s, intent, fatal).Committed?
    ensures Kept(s, ReportCaptureFailure(s, intent, fatal).ledger)
  {
    hide InvExcept, Evolves;
    ReportKeeps(s, CaptureFailure(intent, intent.pending.value.run, fatal));
  }

  lemma ReportAdvanceFailureKeeps(s: Ledger, intent: Task)
    requires Inv(s) && ReportAdvanceFailure(s, intent).Committed?
    ensures Kept(s, ReportAdvanceFailure(s, intent).ledger)
  {
    hide InvExcept, Evolves;
    ReportKeeps(s, AdvanceFailure(intent));
  }

  // ---- projects ----

  /** The new row of a project fits, and so does what it waits for. */
  ghost predicate ProjectMayBecome(s: Ledger, id: ProjectId, project: Project, n: nat) {
    && id in s.projects && ProjectEvolves(s.projects[id], project) && s.nextId <= n
    && ProjectOk(PutProject(s, id, project).(nextId := n), id)
    && ProjectIntentEvolves(s, id, project.pending)
  }

  lemma ProjectRowFits(s: Ledger, e: set<TaskId>, id: ProjectId, project: Project, n: nat)
    requires InvExcept(s, e) && ProjectMayBecome(s, id, project, n)
    ensures ProjectsOk(PutProject(s, id, project).(nextId := n))
    ensures SettingsEvolve(s, PutProject(s, id, project).(nextId := n))
  {
    hide InvExcept, IsAncestor, ProjectFits;
    var s1 := PutProject(s, id, project).(nextId := n);
    forall k | k in s1.projects
      ensures ProjectOk(s1, k)
    {
      if k != id {
        ProjectAt(s, e, k);
      }
    }
  }

  /** A project row changes while it stays out of the archive. */
  lemma ProjectChange(s: Ledger, e: set<TaskId>, id: ProjectId, project: Project)
    requires InvExcept(s, e) && ProjectMayBecome(s, id, project, s.nextId)
    requires project.status == ProjectArchived ==> s.projects[id].status == ProjectArchived
    ensures InvExcept(PutProject(s, id, project), e) && Evolves(s, PutProject(s, id, project))
  {
    hide TasksOk, RunsOk, MessagesOk, OneConversation, OneGeneration, OneLiveRun, RunLimitOk, ProjectsOk, IsAncestor, TaskFits, Evolves;
    RowsFit(s, e);
    SelfAncestor(s);
    ProjectRowFits(s, e, id, project, s.nextId);
    hide MessageOk, CapturedAncestry, ProjectMayBecome, SettingsEvolve;
    SettingsChange(s, PutProject(s, id, project), e);
  }

  lemma CacheKeeps(s: Ledger, e: set<TaskId>, id: ProjectId, actual: Commit)
    requires InvExcept(s, e) && ProjectIsActive(s, id) && id in s.canonical && IsAncestor(actual, s.canonical[id])
    ensures InvExcept(CacheCanonical(s, id, actual), e) && Evolves(s, CacheCanonical(s, id, actual))
    ensures CacheCanonical(s, id, actual) == s.(projects := CacheCanonical(s, id, actual).projects)
    ensures id in CacheCanonical(s, id, actual).projects
            && CacheCanonical(s, id, actual).projects[id].status == s.projects[id].status
  {
    hide InvExcept, Evolves, IsAncestor;
    EvolvesReflexive(s);
    ProjectAt(s, e, id);
    var project := s.projects[id];
    if project.cachedCanonical != Some(actual) {
      ProjectChange(s, e, id, project.(cachedCanonical := Some(actual), version := project.version + 1));
    }
  }

  lemma FailProjectKeeps(s: Ledger, e: set<TaskId>, id: ProjectId)
    requires InvExcept(s, e)
    ensures InvExcept(FailProject(s, id), e) && Evolves(s, FailProject(s, id))
    ensures FailProject(s, id) == s.(projects := FailProject(s, id).projects)
  {
    hide InvExcept, Evolves, IsAncestor;
    EvolvesReflexive(s);
    if ProjectIsActive(s, id) {
      ProjectAt(s, e, id);
      ProjectChange(s, e, id, s.projects[id].(status := ProjectError, version := s.projects[id].version + 1));
    }
  }

  // ---- capture ----

  ghost predicate Captures(s: Ledger, task: Task, fact: GitFact) {
    && task.id in s.tasks && s.tasks[task.id] == task && TaskOk(s, {}, task)
    && fact.intent.id == task.id && fact.intent.origin == task.origin
    && (fact.CaptureFact? || fact.CaptureFailure?) && fact.run in s.runs && s.runs[fact.run].id == fact.run
    && SameCaptureFence(task, s.runs[fact.run], fact.intent)
  }

  lemma SubmitFits(s: Ledger, task: Task, fact: GitFact)
    requires Captures(s, task, fact) && fact.CaptureFact? && CapturedAncestry(task.origin, fact.head)
    requires task.origin.kind != TaskIntegration
    ensures TaskMayBecome(s, {}, {task.id}, None, SubmittedRow(task, fact.run, fact.head))
    ensures PairFits(PutTask(s, SubmittedRow(task, fact.run, fact.head)), {}, SubmittedRow(task, fact.run, fact.head))
  {
    hide IsAncestor, CapturedAncestry;
  }

  lemma IntegrationSubmitFits(s: Ledger, task: Task, fact: GitFact, operation: OperationId, canonical: Commit)
    requires Captures(s, task, fact) && fact.CaptureFact? && CapturedAncestry(task.origin, fact.head)
    requires task.origin.kind == TaskIntegration
    ensures var row := IntegrationSubmittedRow(SubmittedRow(task, fact.run, fact.head), fact.run, fact.head, operation, canonical);
            TaskMayBecome(s, {}, {task.id}, None, row) && PairFits(PutTask(s, row), {}, row)
            && !row.AcceptsDelivery() && task.version < row.version
    ensures task.origin.source.Some? && task.origin.source.value.task in s.tasks
            && IntegrationSourceFence(s.tasks[task.origin.source.value.task], SubmittedRow(task, fact.run, fact.head))
  {
    hide IsAncestor, CapturedAncestry;
  }

  /** A row that stops receiving runs, concluded in the same transaction. */
  lemma LeaveAndConclude(s: Ledger, row: Task, now: Time)
    requires Inv(s) && TaskMayBecome(s, {}, {row.id}, None, row) && PairFits(PutTask(s, row), {}, row)
    requires TaskEvolves(s.tasks[row.id], row) && !row.AcceptsDelivery()
    ensures Conclude(PutTask(s, row), row, now).Committed? && Kept(s, Conclude(PutTask(s, row), row, now).ledger)
    ensures var s1 := Conclude(PutTask(s, row), row, now).ledger; row.id in s1.tasks && s1.tasks[row.id] == row
    ensures Concluded(PutTask(s, row), row, now, Conclude(PutTask(s, row), row, now).ledger)
  {
    hide InvExcept, Evolves, PairFits, Concludes, Conclude, Concluded;
    RowChange(s, {}, {row.id}, None, row);
    RowsEvolve(s, None, row, s.nextId);
    hide TaskMayBecome;
    var s1 := PutTask(s, row);
    assert {row.id} - {row.id} == {};
    ConcludeKeeps(s1, {row.id}, row, now);
    ConcludeConcludes(s1, {row.id}, row, now);
    ConcludesEvolves(s1, Conclude(s1, row, now).ledger);
    ConcludesKeys(s1, Conclude(s1, row, now).ledger);
    EvolvesTransitive(s, s1, Conclude(s1, row, now).ledger);
  }

  /** A row that stops receiving runs, whose parent is not told. */
  lemma LeaveAndDispose(s: Ledger, row: Task, now: Time)
    requires Inv(s) && TaskMayBecome(s, {}, {row.id}, None, row) && PairFits(PutTask(s, row), {}, row)
    requires TaskEvolves(s.tasks[row.id], row) && !row.AcceptsDelivery()
    ensures Dispose(PutTask(s, row), row, now).Committed? && Kept(s, Dispose(PutTask(s, row), row, now).ledger)
    ensures var s1 := Dispose(PutTask(s, row), row, now).ledger; row.id in s1.tasks && s1.tasks[row.id] == row
    ensures MessagesSettled(PutTask(s, row), row, now, Dispose(PutTask(s, row), row, now).ledger)
  {
    hide InvExcept, Evolves, PairFits, Concludes, Dispose, MessagesSettled;
    RowChange(s, {}, {row.id}, None, row);
    RowsEvolve(s, None, row, s.nextId);
    hide TaskMayBecome;
    var s1 := PutTask(s, row);
    assert {row.id} - {row.id} == {};
    DisposedAndSettled(s1, {row.id}, row, now);
    DisposeSettlesMessages(s1, {row.id}, row, now);
    ConcludesEvolves(s1, Dispose(s1, row, now).ledger);
    EvolvesTransitive(s, s1, Dispose(s1, row, now).ledger);
  }

  lemma CapturesFact(s: Ledger, fact: GitFact)
    requires Inv(s) && fact in s.facts && (fact.CaptureFact? || fact.CaptureFailure?)
    requires fact.intent.id in s.tasks && fact.run in s.runs
    requires SameCaptureFence(s.tasks[fact.intent.id], s.runs[fact.run], fact.intent)
    ensures Captures(s, s.tasks[fact.intent.id], fact)
    ensures fact.CaptureFact? ==> CapturedAncestry(fact.intent.origin, fact.head)
  {
    hide InvExcept, TaskOk, TaskFits, CapturedAncestry;
    FactAt(s, {}, fact);
    TaskAt(s, {}, fact.intent.id);
    RunAt(s, {}, fact.run);
  }

  /** A captured head is projected whenever its fence holds, its head is the expected one and
    the project is active: no other branch of finalizeCapture can refuse it. */
  lemma FinalizeCaptureCommits(s: Ledger, fact: GitFact, canonical: Commit, now: Time)
    requires Inv(s) && fact in s.facts && fact.CaptureFact? && fact.intent.id in s.tasks && fact.run in s.runs
    requires SameCaptureFence(s.tasks[fact.intent.id], s.runs[fact.run], fact.intent)
    requires fact.head == s.tasks[fact.intent.id].pending.value.expected
    requires ProjectIsActive(s, s.tasks[fact.intent.id].origin.project)
    ensures FinalizeCapture(s, fact, canonical, now).Committed?
    ensures var s1 := FinalizeCapture(s, fact, canonical, now).ledger; var task := s.tasks[fact.intent.id];
            && Kept(s, s1) && task.id in s1.tasks
            && var row := s1.tasks[task.id];
            && row.status == TaskSubmitted && row.currentRun.None? && task.version < row.version
            && row.result == Some(Result(fact.head, fact.run, TaskRef(task.id, fact.run)))
            && (row.pending.Some? <==> task.origin.kind == TaskIntegration)
  {
    hide InvExcept, Evolves, TaskMayBecome, PairFits, TaskOk, Conclude, Dispose, CapturedAncestry, IntegrationSourceFence;
    CapturesFact(s, fact);
    var task := s.tasks[fact.intent.id];
    if task.origin.kind != TaskIntegration {
      SubmitFits(s, task, fact);
      LeaveAndConclude(s, SubmittedRow(task, fact.run, fact.head), now);
    } else {
      IntegrationSubmitFits(s, task, fact, s.nextId, canonical);
      var row := IntegrationSubmittedRow(SubmittedRow(task, fact.run, fact.head), fact.run, fact.head, s.nextId, canonical);
      BumpedFits(s, row);
      var s0 := s.(nextId := s.nextId + 1);
      NextIdGrows(s, {}, s0);
      NextIdEvolves(s, s0);
      LeaveAndDispose(s0, row, now);
      assert PutTask(s0, row) == PutTask(s, row).(nextId := s.nextId + 1);
      EvolvesTransitive(s, s0, Dispose(PutTask(s0, row), row, now).ledger);
    }
  }

  lemma BumpedFits(s: Ledger, row: Task)
    requires TaskMayBecome(s, {}, {row.id}, None, row) && PairFits(PutTask(s, row), {}, row)
    ensures var s0 := s.(nextId := s.nextId + 1);
            TaskMayBecome(s0, {}, {row.id}, None, row) && PairFits(PutTask(s0, row), {}, row)
  {
    hide TaskFits, IsAncestor, IntegrationSourceFence;
  }

  lemma NextIdEvolves(s: Ledger, s1: Ledger)
    requires s1 == s.(nextId := s1.nextId) && s.nextId <= s1.nextId
    ensures Evolves(s, s1)
  {
    hide RunEvolves, TaskEvolves;
    OthersReflexive(s);
  }

  lemma FinalizeCaptureKeeps(s: Ledger, fact: GitFact, canonical: Commit, now: Time)
    requires Inv(s) && FinalizeCapture(s, fact, canonical, now).Committed?
    ensures Kept(s, FinalizeCapture(s, fact, canonical, now).ledger)
  {
    hide Inv, Evolves, Conclude, Dispose;
    FinalizeCaptureCommits(s, fact, canonical, now);
  }

  // ---- a capture that failed ----

  lemma CaptureFailedFits(s: Ledger, task: Task, fact: GitFact, now: Time)
    requires Captures(s, task, fact) && fact.CaptureFailure?
    ensures var row := CaptureFailedRow(task, fact.fatal, now);
            var after := if row.status == TaskFailed then {task.id} else {};
            TaskMayBecome(s, {}, after, None, row) && PairFits(PutTask(s, row), {}, row)
            && (row.status == TaskFailed || row.status == TaskQueued) && task.version < row.version
  {
    hide IsAncestor, CapturedAncestry;
  }

  /** A row that fails, its project that may stop with it, and the messages that leave it. */
  lemma FailAndConclude(s: Ledger, row: Task, fatal: bool, now: Time)
    requires Inv(s) && TaskMayBecome(s, {}, {row.id}, None, row) && PairFits(PutTask(s, row), {}, row)
    requires TaskEvolves(s.tasks[row.id], row) && row.status == TaskFailed
    ensures var s1 := if fatal then FailProject(PutTask(s, row), row.origin.project) else PutTask(s, row);
            Conclude(s1, row, now).Committed? && Kept(s, Conclude(s1, row, now).ledger)
            && row.id in Conclude(s1, row, now).ledger.tasks && Conclude(s1, row, now).ledger.tasks[row.id] == row
            && Concluded(s1, row, now, Conclude(s1, row, now).ledger)
  {
    hide InvExcept, Evolves, PairFits, Concludes, Conclude, FailProject, Concluded;
    RowChange(s, {}, {row.id}, None, row);
    RowsEvolve(s, None, row, s.nextId);
    hide TaskMayBecome;
    var s0 := PutTask(s, row);
    EvolvesReflexive(s0);
    FailProjectKeeps(s0, {row.id}, row.origin.project);
    var s1 := if fatal then FailProject(s0, row.origin.project) else s0;
    PairReadsTasks(s0, s1, row);
    assert {row.id} - {row.id} == {};
    ConcludeKeeps(s1, {row.id}, row, now);
    ConcludeConcludes(s1, {row.id}, row, now);
    ConcludesEvolves(s1, Conclude(s1, row, now).ledger);
    ConcludesKeys(s1, Conclude(s1, row, now).ledger);
    EvolvesTransitive(s, s0, s1);
    EvolvesTransitive(s, s1, Conclude(s1, row, now).ledger);
  }

  lemma PairReadsTasks(s: Ledger, s1: Ledger, row: Task)
    requires PairFits(s, {}, row) && s1.tasks == s.tasks
    ensures PairFits(s1, {}, row)
  {
  }

  lemma RequeueAfterCapture(s: Ledger, row: Task, fatal: bool)
    requires Inv(s) && TaskMayBecome(s, {}, {}, None, row) && TaskEvolves(s.tasks[row.id], row)
    ensures var s1 := if fatal then FailProject(PutTask(s, row), row.origin.project) else PutTask(s, row);
            Kept(s, s1) && row.id in s1.tasks && s1.tasks[row.id] == row
  {
    hide InvExcept, Evolves, FailProject, TaskMayBecome;
    RowStep(s, None, row, s.nextId);
    var s0 := PutTask(s, row);
    EvolvesReflexive(s0);
    FailProjectKeeps(s0, {}, row.origin.project);
    EvolvesTransitive(s, s0, if fatal then FailProject(s0, row.origin.project) else s0);
  }

  lemma CaptureFailureCommits(s: Ledger, fact: GitFact, now: Time)
    requires Inv(s) && fact in s.facts && fact.CaptureFailure? && fact.intent.id in s.tasks && fact.run in s.runs
    ensures ProjectCaptureFailure(s, fact, now).Committed?
    ensures Kept(s, ProjectCaptureFailure(s, fact, now).ledger)
    ensures SameCaptureFence(s.tasks[fact.intent.id], s.runs[fact.run], fact.intent) ==>
              var s1 := ProjectCaptureFailure(s, fact, now).ledger;
              fact.intent.id in s1.tasks && s1.tasks[fact.intent.id] == CaptureFailedRow(s.tasks[fact.intent.id], fact.fatal, now)
  {
    hide InvExcept, Evolves, TaskMayBecome, PairFits, TaskOk, Conclude, FailProject, Captures;
    var task := s.tasks[fact.intent.id];
    if SameCaptureFence(task, s.runs[fact.run], fact.intent) {
      CapturesFact(s, fact);
      TaskAt(s, {}, fact.intent.id);
      NamedRowsExist(s, {}, fact.intent.id);
      CaptureFailedFits(s, task, fact, now);
      var row := CaptureFailedRow(task, fact.fatal, now);
      if row.status == TaskFailed {
        FailAndConclude(s, row, fact.fatal, now);
      } else {
        RequeueAfterCapture(s, row, fact.fatal);
      }
    } else {
      EvolvesReflexive(s);
    }
  }

  lemma ProjectCaptureFailureKeeps(s: Ledger, fact: GitFact, now: Time)
    requires Inv(s) && ProjectCaptureFailure(s, fact, now).Committed?
    ensures Kept(s, ProjectCaptureFailure(s, fact, now).ledger)
  {
    hide Inv, Evolves, Conclude, FailProject, SameCaptureFence;
    CaptureFailureCommits(s, fact, now);
  }

  // ---- acceptance ----

  lemma AcceptFits(s: Ledger, task: Task, agent: AgentId, row: Task)
    requires task.id in s.tasks && s.tasks[task.id] == task && TaskOk(s, {}, task)
    requires task.ActionAvailable() && task.status == TaskSubmitted && task.result.Some?
    requires agent in s.agents && s.agents[agent] == AgentActive
    requires row.pending.Some? && row.pending.value == Pending(Advance, row.pending.value.id, task.version + 1,
                                                               task.result.value.run, row.pending.value.expected,
                                                               Some(task.result.value.head))
    requires row == task.(accepted := Some(agent), pending := row.pending, version := task.version + 1)
    ensures TaskMayBecome(s, {}, {}, None, row)
  {
    hide IsAncestor, CapturedAncestry;
  }

  lemma AcceptKeeps(
    s: Ledger, id: TaskId, integrator: Option<AgentId>, seen: Task, seenProject: Project, head: Commit, canonical: Commit
  )
    requires Inv(s) && RequestAccept(s, id, integrator, seen, seenProject, head, canonical).Committed?
    ensures Kept(s, RequestAccept(s, id, integrator, seen, seenProject, head, canonical).ledger)
  {
    hide InvExcept, Evolves, TaskMayBecome, TaskOk;
    TaskAt(s, {}, id);
    var task := s.tasks[id];
    var selected := if integrator.Some? then integrator else s.projects[task.origin.project].integrator;
    var intent := Pending(Advance, s.nextId, task.version + 1, task.result.value.run, canonical, Some(head));
    var row := task.(accepted := selected, pending := Some(intent), version := task.version + 1);
    AcceptFits(s, task, selected.value, row);
    RowStep(s, None, row, s.nextId + 1);
  }

  // ---- a failed advance ----

  ghost predicate Advances(s: Ledger, task: Task, fact: GitFact) {
    && task.id in s.tasks && s.tasks[task.id] == task && TaskOk(s, {}, task)
    && fact.intent.id == task.id && fact.intent.origin == task.origin
    && (fact.AdvanceFact? || fact.AdvanceFailure?)
    && SameAdvanceFence(task, fact.intent)
  }

  lemma AdvancesFact(s: Ledger, fact: GitFact)
    requires Inv(s) && fact in s.facts && (fact.AdvanceFact? || fact.AdvanceFailure?)
    requires fact.intent.id in s.tasks && SameAdvanceFence(s.tasks[fact.intent.id], fact.intent)
    ensures Advances(s, s.tasks[fact.intent.id], fact) && FactOk(s, fact)
  {
    hide InvExcept, TaskOk, TaskFits, CapturedAncestry, IsAncestor;
    FactAt(s, {}, fact);
    TaskAt(s, {}, fact.intent.id);
  }

  lemma AdvanceFailedFits(s: Ledger, task: Task, fact: GitFact)
    requires Advances(s, task, fact)
    ensures var row := task.(status := TaskFailed, pending := None, version := task.version + 1);
            TaskMayBecome(s, {}, {task.id}, None, row) && PairFits(PutTask(s, row), {}, row)
  {
    hide IsAncestor, CapturedAncestry;
  }

  lemma AdvanceFailureCommits(s: Ledger, fact: GitFact, now: Time)
    requires Inv(s) && fact in s.facts && fact.AdvanceFailure? && fact.intent.id in s.tasks
    ensures ProjectAdvanceFailure(s, fact, now).Committed?
    ensures Kept(s, ProjectAdvanceFailure(s, fact, now).ledger)
  {
    hide InvExcept, Evolves, TaskMayBecome, PairFits, TaskOk, Conclude, FailProject, Advances;
    var task := s.tasks[fact.intent.id];
    if SameAdvanceFence(task, fact.intent) {
      AdvancesFact(s, fact);
      TaskAt(s, {}, fact.intent.id);
      NamedRowsExist(s, {}, fact.intent.id);
      AdvanceFailedFits(s, task, fact);
      FailAndConclude(s, task.(status := TaskFailed, pending := None, version := task.version + 1), true, now);
    } else {
      EvolvesReflexive(s);
    }
  }

  lemma ProjectAdvanceFailureKeeps(s: Ledger, fact: GitFact, now: Time)
    requires Inv(s) && ProjectAdvanceFailure(s, fact, now).Committed?
    ensures Kept(s, ProjectAdvanceFailure(s, fact, now).ledger)
  {
    hide Inv, Evolves, Conclude, FailProject, SameAdvanceFence;
    AdvanceFailureCommits(s, fact, now);
  }
}
