/** Changes of single rows that keep the invariant. Every transaction is a chain of these. */
module RowChanges {
  import opened Commits
  import opened Model
  import opened Tables
  import opened MessageSteps
  import opened RunSteps
  import opened TaskSteps
  import opened GitSteps
  import opened Invariant

  ghost predicate NothingDeliveredTo(s: Ledger, run: RunId) {
    forall m :: m in s.messages ==> !WasDeliveredTo(s.messages[m], run)
  }

  ghost predicate NoUnresolved(s: Ledger, task: TaskId) {
    forall m :: m in s.messages && s.messages[m].task == task ==> !s.messages[m].Unresolved()
  }

  ghost predicate NoWakeOwed(s: Ledger, task: TaskId) {
    forall m :: m in s.messages && s.messages[m].task == task ==> !s.messages[m].OwesWake()
  }

  // ---- replacing a task row, possibly together with its run ----

  function WithRows(s: Ledger, run: Option<Run>, task: Task): Ledger {
    PutTask(if run.Some? then PutRun(s, run.value) else s, task)
  }

  /** The new row of a run: it keeps its identity, never revives, and ends only after its
    messages went back. */
  ghost predicate RunMayBecome(s: Ledger, run: Run, task: TaskId) {
    && run.id in s.runs
    && var was := s.runs[run.id];
    && run.origin == was.origin && run.origin.task == task
    && RunFits(run)
    && (run.Live() ==> was.Live())
    && (was.Live() && !run.Live() ==> NothingDeliveredTo(s, run.id))
  }

  /** A linked source may only move while its integration is exempt, and an integration may
    only close when its source no longer points to it. */
  ghost predicate PairMayMove(s: Ledger, exempt: set<TaskId>, was: Task, task: Task) {
    && (was.status == TaskSubmitted && was.link.Some? && !SameAsSource(was, task) ==> was.link.value in exempt)
    && (was.origin.kind == TaskIntegration && was.Open() && !task.Open() && was.origin.source.Some?
        && was.origin.source.value.task in s.tasks ==>
          !(s.tasks[was.origin.source.value.task].status == TaskSubmitted
            && s.tasks[was.origin.source.value.task].link == Some(was.id)))
  }

  predicate SameAsSource(was: Task, task: Task) {
    was.status == task.status && was.version == task.version && was.link == task.link
    && was.result == task.result && was.accepted == task.accepted
  }

  ghost predicate MessagesLetGo(s: Ledger, after: set<TaskId>, was: Task, task: Task) {
    && (was.AcceptsDelivery() && !task.AcceptsDelivery() ==> task.id in after || NoUnresolved(s, task.id))
    && (task.status == TaskWaiting && was.status != TaskWaiting ==> NoWakeOwed(s, task.id))
  }

  ghost predicate TaskMayBecome(s: Ledger, before: set<TaskId>, after: set<TaskId>, run: Option<Run>, task: Task) {
    && task.id in s.tasks
    && var was := s.tasks[task.id];
    && var s1 := WithRows(s, run, task);
    && task.origin == was.origin && was.generation <= task.generation
    && before <= after
    && (task.Open() ==> was.Open())
    && TaskOk(s1, after, task)
    && MessagesLetGo(s, after, was, task)
    && PairMayMove(s, after, was, task)
    && (was.currentRun.Some? && was.currentRun.value in s.runs && s1.runs[was.currentRun.value].Live() ==>
          task.currentRun == was.currentRun)
    && (run.Some? ==> RunMayBecome(s, run.value, task.id))
  }

  lemma OtherTaskKept(s: Ledger, before: set<TaskId>, after: set<TaskId>, run: Option<Run>, task: Task, k: TaskId)
    requires IdsOk(s) && TaskMayBecome(s, before, after, run, task)
    requires k in s.tasks && k != task.id
    requires TaskOk(s, before, s.tasks[k])
    ensures TaskOk(WithRows(s, run, task), after, s.tasks[k])
  {
    hide IsAncestor, CapturedAncestry, TaskFits, RunFits, MessagesLetGo;
  }

  lemma TasksKept(s: Ledger, before: set<TaskId>, after: set<TaskId>, run: Option<Run>, task: Task)
    requires IdsOk(s) && TaskMayBecome(s, before, after, run, task) && TasksOk(s, before)
    ensures TasksOk(WithRows(s, run, task), after)
  {
    forall k | k in s.tasks && k != task.id
      ensures TaskOk(WithRows(s, run, task), after, s.tasks[k])
    {
      OtherTaskKept(s, before, after, run, task, k);
    }
    hide IsAncestor, TaskOk, RunMayBecome, MessagesLetGo, PairMayMove;
  }

  lemma RunKept(s: Ledger, before: set<TaskId>, after: set<TaskId>, run: Option<Run>, task: Task, k: RunId)
    requires IdsOk(s) && TaskMayBecome(s, before, after, run, task)
    requires k in s.runs && RunOk(s, s.runs[k])
    ensures RunOk(WithRows(s, run, task), WithRows(s, run, task).runs[k])
  {
    hide IsAncestor, RunFits, MessagesLetGo, PairMayMove, TaskOk, NothingDeliveredTo;
  }

  lemma RunsKept(s: Ledger, before: set<TaskId>, after: set<TaskId>, run: Option<Run>, task: Task)
    requires IdsOk(s) && TaskMayBecome(s, before, after, run, task) && RunsOk(s)
    ensures RunsOk(WithRows(s, run, task))
  {
    forall k | k in s.runs
      ensures RunOk(WithRows(s, run, task), WithRows(s, run, task).runs[k])
    {
      RunKept(s, before, after, run, task, k);
    }
    hide IsAncestor, RunOk, MessagesLetGo, PairMayMove, TaskOk, NothingDeliveredTo;
  }

  lemma FewerLiveRuns(s: Ledger, s1: Ledger)
    requires RunLimitOk(s) && s1.maxRuns == s.maxRuns
    requires forall k :: k in s1.runs && s1.runs[k].Live() ==> k in s.runs && s.runs[k].Live()
    ensures RunLimitOk(s1)
  {
    assert LiveRuns(s1) <= LiveRuns(s);
    SubsetIsSmaller(LiveRuns(s1), LiveRuns(s));
  }

  lemma SubsetIsSmaller<T>(a: set<T>, b: set<T>)
    requires a <= b
    ensures |a| <= |b|
  {
    assert b == a + (b - a);
    assert |a + (b - a)| == |a| + |b - a|;
  }

  lemma RunNumbersKept(s: Ledger, before: set<TaskId>, after: set<TaskId>, run: Option<Run>, task: Task)
    requires IdsOk(s) && TaskMayBecome(s, before, after, run, task)
    requires OneGeneration(s) && OneLiveRun(s) && RunLimitOk(s)
    ensures OneGeneration(WithRows(s, run, task)) && OneLiveRun(WithRows(s, run, task))
    ensures RunLimitOk(WithRows(s, run, task))
  {
    hide IsAncestor, RunFits, MessagesLetGo, PairMayMove, TaskOk, NothingDeliveredTo;
    FewerLiveRuns(s, WithRows(s, run, task));
  }

  lemma MessageKept(s: Ledger, before: set<TaskId>, after: set<TaskId>, run: Option<Run>, task: Task, k: MessageId)
    requires IdsOk(s) && TaskMayBecome(s, before, after, run, task)
    requires k in s.messages && MessageOk(s, before, s.messages[k])
    ensures MessageOk(WithRows(s, run, task), after, s.messages[k])
  {
    hide IsAncestor, RunFits, PairMayMove, TaskOk, Accounted;
  }

  lemma MessagesKept(s: Ledger, before: set<TaskId>, after: set<TaskId>, run: Option<Run>, task: Task)
    requires IdsOk(s) && TaskMayBecome(s, before, after, run, task) && MessagesOk(s, before)
    ensures MessagesOk(WithRows(s, run, task), after)
  {
    forall k | k in s.messages
      ensures MessageOk(WithRows(s, run, task), after, s.messages[k])
    {
      MessageKept(s, before, after, run, task, k);
    }
    hide IsAncestor, MessageOk, RunMayBecome, MessagesLetGo, PairMayMove, TaskOk;
  }

  lemma SharedFactsKept(s: Ledger, before: set<TaskId>, after: set<TaskId>, run: Option<Run>, task: Task)
    requires IdsOk(s) && TaskMayBecome(s, before, after, run, task)
    requires OneConversation(s) && GitOk(s)
    ensures IdsOk(WithRows(s, run, task)) && OneConversation(WithRows(s, run, task)) && GitOk(WithRows(s, run, task))
  {
    hide IsAncestor, CapturedAncestry, TaskFits, RunFits, MessagesLetGo, PairMayMove, TaskOk, NothingDeliveredTo;
  }

  /** Projects rest on their own rows, the canonical refs and the IDs issued so far. */
  lemma ProjectsKept(s: Ledger, s1: Ledger)
    requires ProjectsOk(s) && s1.projects == s.projects && s1.canonical == s.canonical && s.nextId <= s1.nextId
    ensures ProjectsOk(s1)
  {
    hide IsAncestor, ProjectFits;
    forall k | k in s1.projects
      ensures ProjectOk(s1, k)
    {
      assert ProjectOk(s, k);
    }
  }

  lemma RowChange(s: Ledger, before: set<TaskId>, after: set<TaskId>, run: Option<Run>, task: Task)
    requires InvExcept(s, before) && TaskMayBecome(s, before, after, run, task)
    ensures InvExcept(WithRows(s, run, task), after)
  {
    hide IdsOk, TasksOk, RunsOk, MessagesOk, OneConversation, OneGeneration, OneLiveRun, RunLimitOk, ProjectsOk, GitOk,
         TaskMayBecome, WithRows;
    TasksKept(s, before, after, run, task);
    RunsKept(s, before, after, run, task);
    RunNumbersKept(s, before, after, run, task);
    MessagesKept(s, before, after, run, task);
    SharedFactsKept(s, before, after, run, task);
    RowsAreOnlyRows(s, run, task);
    ProjectsKept(s, WithRows(s, run, task));
  }

  lemma RowsAreOnlyRows(s: Ledger, run: Option<Run>, task: Task)
    ensures var s1 := WithRows(s, run, task);
            s1.projects == s.projects && s1.canonical == s.canonical && s1.nextId == s.nextId
  {
  }

  /** A run row changes alone: it stays in its state and keeps what its task relies on. */
  ghost predicate RunMayChange(s: Ledger, run: Run) {
    && run.id in s.runs
    && var was := s.runs[run.id];
    && run.origin == was.origin && run.state == was.state
    && run.outcome == was.outcome && run.expectedHead == was.expectedHead
    && (was.stop.Some? ==> run.stop == was.stop) && (was.tokenRevoked ==> run.tokenRevoked)
    && RunFits(run)
  }

  lemma RunChange(s: Ledger, exempt: set<TaskId>, run: Run)
    requires InvExcept(s, exempt) && RunMayChange(s, run)
    ensures InvExcept(PutRun(s, run), exempt)
  {
    hide TaskMayBecome, IdsOk, TasksOk, RunsOk, MessagesOk, OneConversation, OneGeneration, OneLiveRun, RunLimitOk, ProjectsOk,
         GitOk, TaskOk, RunMayChange;
    OwnTaskKept(s, exempt, run);
    RunChangeFits(s, exempt, run);
    RowChange(s, exempt, exempt, Some(run), s.tasks[run.origin.task]);
    assert s.tasks[run.origin.task := s.tasks[run.origin.task]] == s.tasks;
  }

  lemma RunChangeFits(s: Ledger, exempt: set<TaskId>, run: Run)
    requires RunMayChange(s, run) && run.origin.task in s.tasks && s.tasks[run.origin.task].id == run.origin.task
    requires TaskOk(WithRows(s, Some(run), s.tasks[run.origin.task]), exempt, s.tasks[run.origin.task])
    ensures TaskMayBecome(s, exempt, exempt, Some(run), s.tasks[run.origin.task])
  {
    hide IsAncestor, TaskOk, RunFits;
  }

  lemma OwnRunFits(s: Ledger, exempt: set<TaskId>, run: Run)
    requires IdsOk(s) && RunMayChange(s, run) && run.origin.task in s.tasks
    requires CurrentRunFits(s, s.tasks[run.origin.task])
    ensures CurrentRunFits(s.(runs := s.runs[run.id := run]), s.tasks[run.origin.task])
  {
    hide RunFits;
  }

  lemma OtherColumnsFit(s: Ledger, s1: Ledger, exempt: set<TaskId>, task: Task)
    requires s1 == s.(runs := s1.runs) && NamesFit(s, task) && PairFits(s, exempt, task)
    ensures NamesFit(s1, task) && PairFits(s1, exempt, task)
  {
    hide IsAncestor, IntegrationSourceFence;
  }

  lemma OwnTaskKept(s: Ledger, exempt: set<TaskId>, run: Run)
    requires IdsOk(s) && TasksOk(s, exempt) && RunsOk(s) && RunMayChange(s, run)
    ensures run.origin.task in s.tasks && s.tasks[run.origin.task].id == run.origin.task
    ensures TaskOk(WithRows(s, Some(run), s.tasks[run.origin.task]), exempt, s.tasks[run.origin.task])
  {
    assert RunOk(s, s.runs[run.id]);
    assert TaskOk(s, exempt, s.tasks[run.origin.task]);
    assert s.tasks[run.origin.task := s.tasks[run.origin.task]] == s.tasks;
    var s1 := WithRows(s, Some(run), s.tasks[run.origin.task]);
    assert s1 == s.(runs := s.runs[run.id := run]);
    OwnRunFits(s, exempt, run);
    OtherColumnsFit(s, s1, exempt, s.tasks[run.origin.task]);
    hide TaskFits, RunFits, CurrentRunFits, NamesFit, PairFits;
  }

  // ---- a new task ----

  function InsertTask(s: Ledger, task: Task): Ledger {
    PutTask(s, task).(nextId := s.nextId + 1)
  }

  ghost predicate MayInsert(s: Ledger, before: set<TaskId>, after: set<TaskId>, task: Task) {
    && task.id == s.nextId && task.currentRun.None?
    && before <= after
    && TaskOk(InsertTask(s, task), after, task)
    && (forall k :: k in s.tasks ==> !SameConversation(s.tasks[k], task))
  }

  lemma OldTaskKept(s: Ledger, before: set<TaskId>, after: set<TaskId>, task: Task, k: TaskId)
    requires IdsOk(s) && MayInsert(s, before, after, task)
    requires k in s.tasks && TaskOk(s, before, s.tasks[k])
    ensures TaskOk(InsertTask(s, task), after, s.tasks[k])
  {
    hide IsAncestor, TaskFits, SameConversation;
  }

  lemma OldRowsKept(s: Ledger, before: set<TaskId>, after: set<TaskId>, task: Task)
    requires IdsOk(s) && MayInsert(s, before, after, task)
    requires RunsOk(s) && MessagesOk(s, before) && OneConversation(s)
    ensures RunsOk(InsertTask(s, task)) && MessagesOk(InsertTask(s, task), after) && OneConversation(InsertTask(s, task))
  {
    var s1 := InsertTask(s, task);
    forall k | k in s.runs
      ensures RunOk(s1, s.runs[k])
    {
      assert RunOk(s, s.runs[k]);
      hide IsAncestor, RunFits, TaskOk, MessageOk;
    }
    forall k | k in s.messages
      ensures MessageOk(s1, after, s.messages[k])
    {
      assert MessageOk(s, before, s.messages[k]);
      hide IsAncestor, RunOk, TaskOk, Accounted;
    }
    hide IsAncestor, RunOk, TaskOk, MessageOk;
  }

  lemma TasksInserted(s: Ledger, before: set<TaskId>, after: set<TaskId>, task: Task)
    requires IdsOk(s) && TasksOk(s, before) && GitOk(s) && MayInsert(s, before, after, task)
    ensures IdsOk(InsertTask(s, task)) && TasksOk(InsertTask(s, task), after) && GitOk(InsertTask(s, task))
  {
    hide IsAncestor, CapturedAncestry, TaskFits, TaskOk, SameConversation;
    forall k | k in s.tasks
      ensures TaskOk(InsertTask(s, task), after, s.tasks[k])
    {
      OldTaskKept(s, before, after, task, k);
    }
  }

  lemma TaskInserted(s: Ledger, before: set<TaskId>, after: set<TaskId>, task: Task)
    requires InvExcept(s, before) && MayInsert(s, before, after, task)
    ensures InvExcept(InsertTask(s, task), after)
  {
    hide IsAncestor, IdsOk, TasksOk, RunsOk, MessagesOk, OneConversation, ProjectsOk, GitOk, MayInsert;
    TasksInserted(s, before, after, task);
    OldRowsKept(s, before, after, task);
    assert LiveRuns(InsertTask(s, task)) == LiveRuns(s);
    ProjectsKept(s, InsertTask(s, task));
  }

  // ---- messages ----

  ghost predicate MessagesMayBecome(s: Ledger, exempt: set<TaskId>, messages: map<MessageId, Message>) {
    forall k :: k in messages ==> messages[k].id == k && k < s.nextId && MessageOk(s, exempt, messages[k])
  }

  lemma MessagesChange(s: Ledger, exempt: set<TaskId>, messages: map<MessageId, Message>)
    requires InvExcept(s, exempt) && MessagesMayBecome(s, exempt, messages)
    ensures InvExcept(s.(messages := messages), exempt)
  {
    hide IsAncestor, TaskFits, CurrentRunFits, PairFits, RunsOk, MessageOk, OneConversation, OneGeneration, OneLiveRun,
         RunLimitOk, ProjectsOk;
    ProjectsKept(s, s.(messages := messages));
    OtherTablesChange(s, s.(messages := messages), exempt, exempt);
  }

  lemma MessageChange(s: Ledger, exempt: set<TaskId>, message: Message)
    requires InvExcept(s, exempt) && message.id < s.nextId && MessageOk(s, exempt, message)
    ensures InvExcept(PutMessage(s, message), exempt)
  {
    hide MessageOk, TasksOk, RunsOk, OneConversation, OneGeneration, OneLiveRun, RunLimitOk, ProjectsOk, GitOk;
    MessagesChange(s, exempt, s.messages[message.id := message]);
  }

  // ---- everything that leaves the task and run rows alone ----

  ghost predicate MessagesWithin(s: Ledger, s1: Ledger, exempt: set<TaskId>) {
    forall k :: k in s1.messages ==> MessageOk(s, exempt, s1.messages[k])
  }

  /** Tasks and runs stay; the other tables may change as far as the tasks' names still fit. */
  lemma OtherTablesChange(s: Ledger, s1: Ledger, before: set<TaskId>, exempt: set<TaskId>)
    requires InvExcept(s, before) && before <= exempt
    requires s1.tasks == s.tasks && s1.runs == s.runs && s1.maxRuns == s.maxRuns
    requires IdsOk(s1) && ProjectsOk(s1) && GitOk(s1) && MessagesWithin(s, s1, exempt)
    requires forall k :: k in s.tasks ==> NamesFit(s1, s.tasks[k])
    ensures InvExcept(s1, exempt)
  {
    hide IsAncestor, IdsOk, ProjectsOk, GitOk, TaskFits, RunFits, Accounted, NamesFit, IntegrationSourceFence;
    forall k | k in s1.tasks
      ensures TaskOk(s1, exempt, s1.tasks[k])
    {
      assert TaskOk(s, before, s.tasks[k]);
    }
    forall k | k in s1.runs
      ensures RunOk(s1, s1.runs[k])
    {
      assert RunOk(s, s.runs[k]);
    }
    forall k | k in s1.messages
      ensures MessageOk(s1, exempt, s1.messages[k])
    {
      assert MessageOk(s, exempt, s1.messages[k]);
    }
    assert LiveRuns(s1) == LiveRuns(s);
    hide TaskOk, RunOk, MessageOk;
  }
}
