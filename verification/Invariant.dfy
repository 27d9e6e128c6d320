/** What holds of the tables between any two transactions.

  `InvExcept` spares a set of tasks. In the middle of a transaction a task may already have
  left the delivering states although its messages were not handed on yet, and an
  integration task may be out of step with its source; a task outside the set may not.
 */
module Invariant {
  import opened Commits
  import opened Model
  import opened Tables
  import opened MessageSteps
  import opened RunSteps
  import opened TaskSteps
  import opened GitSteps

  // ---- one task ----

  /** A pending action is exactly as old as its row, and fits the row's status. */
  ghost predicate PendingFits(t: Task) {
    t.pending.Some? ==>
      && t.pending.value.version == t.version
      && match t.pending.value.action
         case Capture => t.status == TaskFinishing && t.currentRun == Some(t.pending.value.run)
         case Advance =>
           t.status == TaskSubmitted && t.result.Some? && t.accepted.Some? && t.link.None?
           && t.pending.value.target == Some(t.result.value.head) && t.pending.value.run == t.result.value.run
  }

  ghost predicate KindFits(t: Task) {
    && (t.origin.assignee.None? ==>
          t.origin.kind == TaskWork && t.currentRun.None? && t.result.None?
          && (t.status == TaskWaiting || t.status == TaskCompleted || t.status == TaskCancelled))
    && (t.origin.kind == TaskConversation ==> t.result.None? && t.status != TaskSubmitted && t.pending.None?)
    && (t.origin.kind == TaskIntegration ==>
          t.origin.source.Some? && (t.status == TaskSubmitted ==> t.pending.Some?))
    && (t.link.Some? ==>
          t.origin.kind == TaskWork && (t.status == TaskSubmitted || t.status == TaskCompleted)
          && t.pending.None? && t.accepted.Some? && t.result.Some?)
  }

  ghost predicate StatusFits(t: Task) {
    && (t.currentRun.Some? ==>
          t.status == TaskQueued || t.status == TaskRunning || t.status == TaskFinishing || t.status == TaskCancelled)
    && (t.status == TaskRunning || t.status == TaskFinishing ==> t.currentRun.Some?)
    && (t.status == TaskSubmitted ==> t.result.Some?)
    && t.retryCount <= t.origin.maxRetries
    && (t.sourceReleased ==> t.origin.source.Some? && !t.Open())
  }

  /** A result is named by the ref of its task and run. */
  predicate OwnRef(task: TaskId, result: Result) {
    result.ref == TaskRef(task, result.run)
  }

  /** A captured result contains its base and its source; a completed one is contained in the
    canonical commit the task was completed with. */
  ghost predicate ResultFits(t: Task) {
    && (t.result.Some? ==> OwnRef(t.id, t.result.value))
    && (t.origin.source.Some? ==> OwnRef(t.origin.source.value.task, t.origin.source.value.result))
    && (t.result.Some? ==> CapturedAncestry(t.origin, t.result.value.head))
    && (t.status == TaskCompleted && t.result.Some? ==>
          t.finalCanonical.Some? && IsAncestor(t.result.value.head, t.finalCanonical.value))
  }

  ghost predicate TaskFits(t: Task) {
    PendingFits(t) && KindFits(t) && StatusFits(t) && ResultFits(t)
  }

  // ---- a task and the rows it names ----

  ghost predicate CurrentRunFits(s: Ledger, t: Task) {
    t.currentRun.Some? ==>
      && t.currentRun.value in s.runs
      && var run := s.runs[t.currentRun.value];
      && run.origin.task == t.id
      && (t.status != TaskCancelled ==> run.origin.generation == t.generation)
      && match t.status
         case TaskQueued => run.state == RunStarting && run.outcome.None?
         case TaskRunning => run.state == RunActive && run.outcome.None?
         case TaskFinishing =>
           run.outcome.Some? && (run.Live() || run.outcome.value == OutcomeSubmit)
           && (t.pending.Some? <==> run.outcome.value == OutcomeSubmit)
           && (t.pending.Some? ==> run.expectedHead == Some(t.pending.value.expected))
         case _ => run.Live() && run.stop.Some? && run.tokenRevoked
  }

  ghost predicate NamesFit(s: Ledger, t: Task) {
    && t.origin.project in s.projects
    && (t.origin.parent.Some? ==>
          t.origin.parent.value in s.tasks && s.tasks[t.origin.parent.value].origin.project == t.origin.project)
    && (t.origin.source.Some? ==>
          t.origin.source.value.task in s.tasks
          && s.tasks[t.origin.source.value.task].origin.project == t.origin.project)
    && (t.origin.assignee.Some? ==> t.origin.assignee.value in s.agents)
    && (t.accepted.Some? ==> t.accepted.value in s.agents)
    && (t.Open() ==>
          && s.projects[t.origin.project].status != ProjectArchived
          && (t.origin.assignee.Some? ==> s.agents[t.origin.assignee.value] != AgentArchived)
          && (t.accepted.Some? ==> s.agents[t.accepted.value] != AgentArchived))
    && (t.finalCanonical.Some? ==>
          t.origin.project in s.canonical && IsAncestor(t.finalCanonical.value, s.canonical[t.origin.project]))
  }

  /** The open integration task a row stands for, seen from its source. */
  ghost predicate IsOpenIntegrationOf(s: Ledger, i: TaskId, source: TaskId) {
    i in s.tasks && s.tasks[i].origin.kind == TaskIntegration && s.tasks[i].Open()
    && s.tasks[i].origin.source.Some? && s.tasks[i].origin.source.value.task == source
  }

  ghost predicate PairFits(s: Ledger, exempt: set<TaskId>, t: Task) {
    && (t.origin.kind == TaskIntegration && t.Open() && t.id !in exempt ==>
          t.origin.source.Some? && t.origin.source.value.task in s.tasks
          && IntegrationSourceFence(s.tasks[t.origin.source.value.task], t))
    && (t.status == TaskSubmitted && t.link.Some? ==> IsOpenIntegrationOf(s, t.link.value, t.id))
  }

  ghost predicate TaskOk(s: Ledger, exempt: set<TaskId>, t: Task) {
    TaskFits(t) && CurrentRunFits(s, t) && NamesFit(s, t) && PairFits(s, exempt, t)
  }

  // ---- one run ----

  ghost predicate RunFits(r: Run) {
    && (r.state == RunStarting ==> r.phase != LaunchProcessObserved)
    && (r.state == RunActive ==> r.phase == LaunchProcessObserved)
    && (r.container.Some? <==> r.phase != LaunchIntent)
    && (r.nonce.None? <==> r.cleanup == CleanupNotNeeded)
    && (r.nonce.None? ==> r.phase == LaunchIntent)
    && (r.cleanup == CleanupRemoved ==> !r.Live())
    && (r.outcome.Some? ==> r.phase == LaunchProcessObserved)
    && (r.outcome.Some? || r.stop.Some? || !r.Live() ==> r.tokenRevoked)
  }

  ghost predicate RunOk(s: Ledger, r: Run) {
    && RunFits(r)
    && r.origin.task in s.tasks
    && var t := s.tasks[r.origin.task];
    && r.origin.project == t.origin.project
    && t.origin.assignee == Some(r.origin.agent)
    && 1 <= r.origin.generation <= t.generation
    && (r.Live() ==> t.currentRun == Some(r.id))
  }

  // ---- one message ----

  ghost predicate Accounted(m: Message) {
    && (m.max > 0 ==> m.count <= m.max)
    && (m.state == MessagePending ==> m.deliveredRun.None? && (m.nextAt.None? <==> m.Exhausted()))
  }

  ghost predicate DeliveryFits(s: Ledger, m: Message)
    requires m.task in s.tasks && m.recipient.ToAgent?
  {
    m.state == MessageDelivered ==>
      && m.deliveredRun.Some? && m.deliveredRun.value in s.runs
      && var run := s.runs[m.deliveredRun.value];
      && run.Live() && run.origin.agent == m.recipient.agent
      && (run.origin.task == m.task || s.tasks[m.task].origin.kind == TaskConversation)
  }

  ghost predicate MessageOk(s: Ledger, exempt: set<TaskId>, m: Message) {
    m.Unresolved() ==>
      && Accounted(m)
      && m.task in s.tasks
      && var t := s.tasks[m.task];
      && t.origin.project == m.project && t.origin.assignee == Some(m.recipient.agent)
      && (t.AcceptsDelivery() || m.task in exempt)
      && (m.OwesWake() ==> t.status != TaskWaiting)
      && DeliveryFits(s, m)
  }

  // ---- the whole state ----

  ghost predicate IdsOk(s: Ledger) {
    && (forall k :: k in s.tasks ==> s.tasks[k].id == k && k < s.nextId)
    && (forall k :: k in s.runs ==> s.runs[k].id == k && k < s.nextId)
    && (forall k :: k in s.messages ==> s.messages[k].id == k && k < s.nextId)
    && (forall k :: k in s.projects ==> k < s.nextId)
    && (forall k :: k in s.agents ==> k < s.nextId)
    && (forall k :: k in s.canonical ==> k < s.nextId)
  }

  ghost predicate TasksOk(s: Ledger, exempt: set<TaskId>) {
    forall k :: k in s.tasks ==> TaskOk(s, exempt, s.tasks[k])
  }

  ghost predicate RunsOk(s: Ledger) {
    forall k :: k in s.runs ==> RunOk(s, s.runs[k])
  }

  ghost predicate MessagesOk(s: Ledger, exempt: set<TaskId>) {
    forall k :: k in s.messages ==> MessageOk(s, exempt, s.messages[k])
  }

  ghost predicate SameConversation(a: Task, b: Task) {
    a.origin.kind == TaskConversation && b.origin.kind == TaskConversation && a.Open() && b.Open()
    && a.origin.project == b.origin.project && a.origin.assignee == b.origin.assignee
  }

  ghost predicate OneConversation(s: Ledger) {
    forall a, b | a in s.tasks && b in s.tasks && SameConversation(s.tasks[a], s.tasks[b]) :: a == b
  }

  ghost predicate SameGeneration(a: Run, b: Run) {
    a.origin.task == b.origin.task && a.origin.generation == b.origin.generation
  }

  ghost predicate OneGeneration(s: Ledger) {
    forall a, b | a in s.runs && b in s.runs && SameGeneration(s.runs[a], s.runs[b]) :: a == b
  }

  ghost predicate BothLive(a: Run, b: Run) {
    a.Live() && b.Live() && a.origin.agent == b.origin.agent
  }

  ghost predicate OneLiveRun(s: Ledger) {
    forall a, b | a in s.runs && b in s.runs && BothLive(s.runs[a], s.runs[b]) :: a == b
  }

  ghost predicate RunLimitOk(s: Ledger) {
    |LiveRuns(s)| <= s.maxRuns
  }

  /** A project waits for Git exactly while it is being created or repaired, an active one was
    verified, and one that was ever verified is not initialised. */
  predicate ProjectFits(p: Project) {
    && (p.pending.Some? <==> p.status == ProjectCreating)
    && (p.status == ProjectActive ==> p.cachedCanonical.Some?)
    && (p.pending.Some? && p.pending.value.Initialize? ==> p.cachedCanonical.None?)
  }

  /** The canonical ref contains the commit it started from and the one the row remembers. */
  ghost predicate ProjectOk(s: Ledger, k: ProjectId)
    requires k in s.projects
  {
    var p := s.projects[k];
    && ProjectFits(p)
    && (p.pending.Some? ==> p.pending.value.operation < s.nextId)
    && (k in s.canonical ==> IsAncestor(p.initial, s.canonical[k]))
    && (p.cachedCanonical.Some? ==> k in s.canonical && IsAncestor(p.cachedCanonical.value, s.canonical[k]))
  }

  ghost predicate ProjectsOk(s: Ledger) {
    forall k :: k in s.projects ==> ProjectOk(s, k)
  }

  ghost predicate IntentOk(s: Ledger, t: Task) {
    t.id in s.tasks && s.tasks[t.id].origin == t.origin && TaskFits(t)
  }

  ghost predicate FactOk(s: Ledger, f: GitFact) {
    && f.intent in s.intents && f.intent.pending.Some?
    && match f
       case CaptureFact(intent, run, head) =>
         intent.pending.value.action == Capture && intent.pending.value.run == run
         && intent.pending.value.expected == head && CapturedAncestry(intent.origin, head)
       case CaptureFailure(intent, run, _) => intent.pending.value.action == Capture && intent.pending.value.run == run
       case AdvanceFact(intent, outcome, actual) =>
         && intent.pending.value.action == Advance
         && intent.result.Some? && intent.origin.project in s.canonical
         && IsAncestor(actual, s.canonical[intent.origin.project])
         && (outcome != AdvanceStale ==> IsAncestor(intent.result.value.head, actual))
       case AdvanceFailure(intent) => intent.pending.value.action == Advance
  }

  ghost predicate GitOk(s: Ledger) {
    && (forall t :: t in s.intents ==> IntentOk(s, t))
    && (forall f :: f in s.facts ==> FactOk(s, f))
  }

  ghost predicate InvExcept(s: Ledger, exempt: set<TaskId>) {
    && IdsOk(s) && TasksOk(s, exempt) && RunsOk(s) && MessagesOk(s, exempt)
    && OneConversation(s) && OneGeneration(s) && OneLiveRun(s) && RunLimitOk(s) && ProjectsOk(s) && GitOk(s)
  }

  ghost predicate Inv(s: Ledger) {
    InvExcept(s, {})
  }

  // ---- reading one row's share of the invariant ----

  lemma TaskAt(s: Ledger, e: set<TaskId>, k: TaskId)
    requires InvExcept(s, e) && k in s.tasks
    ensures s.tasks[k].id == k < s.nextId && TaskOk(s, e, s.tasks[k])
  {
    hide TaskOk, RunsOk, MessagesOk, OneConversation, OneGeneration, OneLiveRun, RunLimitOk, ProjectsOk, GitOk;
  }

  lemma RunAt(s: Ledger, e: set<TaskId>, k: RunId)
    requires InvExcept(s, e) && k in s.runs
    ensures s.runs[k].id == k < s.nextId && RunOk(s, s.runs[k])
  {
    hide RunOk, TasksOk, MessagesOk, OneConversation, OneGeneration, OneLiveRun, RunLimitOk, ProjectsOk, GitOk;
  }

  lemma MessageAt(s: Ledger, e: set<TaskId>, k: MessageId)
    requires InvExcept(s, e) && k in s.messages
    ensures s.messages[k].id == k < s.nextId && MessageOk(s, e, s.messages[k])
  {
    hide MessageOk, TasksOk, RunsOk, OneConversation, OneGeneration, OneLiveRun, RunLimitOk, ProjectsOk, GitOk;
  }

  lemma FreshId(s: Ledger, e: set<TaskId>)
    requires InvExcept(s, e)
    ensures forall n :: s.nextId <= n ==>
              n !in s.tasks && n !in s.runs && n !in s.messages && n !in s.projects && n !in s.agents && n !in s.canonical
  {
    hide TasksOk, RunsOk, MessagesOk, OneConversation, OneGeneration, OneLiveRun, RunLimitOk, ProjectsOk, GitOk;
  }

  lemma ProjectAt(s: Ledger, e: set<TaskId>, k: ProjectId)
    requires InvExcept(s, e) && k in s.projects
    ensures ProjectOk(s, k) && k < s.nextId
  {
    hide ProjectOk, TasksOk, RunsOk, MessagesOk, OneConversation, OneGeneration, OneLiveRun, RunLimitOk, GitOk;
  }
}
