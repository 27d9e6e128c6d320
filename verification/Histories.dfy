/** Concrete histories from an empty database. They show that the exceptional cases proved elsewhere
  really happen: a terminal report that is refused when it is repeated, and the two status edges
  outside the table.
 */
module Histories {
  import opened Commits
  import opened Model
  import opened Tables
  import opened MessageSteps
  import opened RunSteps
  import opened TaskSteps
  import opened GitSteps
  import opened ProjectSteps
  import opened System
  import opened Invariant
  import opened Safety
  import opened Lifecycle
  import opened Edges

  function At(step: Step): Event {
    Event(None, step, 0)
  }

  ghost predicate Leads(events: seq<Event>, s: Ledger) {
    RunAll(Empty(1), events) == s
  }

  lemma {:induction false} RunAllAppend(s: Ledger, events: seq<Event>, event: Event)
    ensures RunAll(s, events + [event]) == Next(RunAll(s, events), event)
    decreases |events|
  {
    hide Next;
    if events == [] {
      assert [event][1..] == [];
    } else {
      assert (events + [event])[1..] == events[1..] + [event];
      RunAllAppend(Next(s, events[0]), events[1..], event);
    }
  }

  /** One more committed step. */
  lemma Then(events: seq<Event>, s: Ledger, step: Step, s1: Ledger)
    requires Leads(events, s) && Attempt(s, step, 0) == Committed(s1)
    ensures Leads(events + [At(step)], s1)
  {
    hide RunAll, Attempt;
    RunAllAppend(Empty(1), events, At(step));
  }

  lemma LedToIsReachable(events: seq<Event>, s: Ledger)
    requires Leads(events, s)
    ensures Reachable(s)
  {
    hide RunAll;
  }

  lemma NothingYet()
    ensures Leads([], Empty(1))
  {
  }

  // ---- a project ----

  const ROOT := Commit(0, [])

  function WithAgent(): Ledger {
    Empty(1).(agents := map[0 := AgentActive], nextId := 1)
  }

  function WithProject(): Ledger {
    WithAgent().(projects := map[1 := Project(ProjectCreating, ROOT, None, Some(0), Some(Initialize(2)), 1)], nextId := 3)
  }

  function Promoted(): Ledger {
    WithProject().(canonical := map[1 := ROOT])
  }

  function Registered(): Ledger {
    Promoted().(projects := map[1 := Project(ProjectActive, ROOT, Some(ROOT), Some(0), None, 2)])
  }

  function Registration(): seq<Event> {
    [] + [At(Registry(StepAddAgent))]
    + [At(Registry(StepAddProject(ROOT, Some(0))))]
    + [At(Git(StepPromoteRepository(1)))]
    + [At(Registry(StepFinishProject(1, Initialize(2), Some(ROOT))))]
  }

  lemma RegistrationLeads()
    ensures Leads(Registration(), Registered())
  {
    hide AttemptRuns, AttemptMessages, AttemptTasks, AttemptProjections, Leads;
    NothingYet();
    Then([], Empty(1), Registry(StepAddAgent), WithAgent());
    Then([] + [At(Registry(StepAddAgent))], WithAgent(), Registry(StepAddProject(ROOT, Some(0))), WithProject());
    Then([] + [At(Registry(StepAddAgent))] + [At(Registry(StepAddProject(ROOT, Some(0))))],
         WithProject(), Git(StepPromoteRepository(1)), Promoted());
    Then([] + [At(Registry(StepAddAgent))] + [At(Registry(StepAddProject(ROOT, Some(0))))]
         + [At(Git(StepPromoteRepository(1)))],
         Promoted(), Registry(StepFinishProject(1, Initialize(2), Some(ROOT))), Registered());
  }

  // ---- a run that is launched ----

  function Created(assignee: Option<AgentId>): Ledger {
    Registered().(
      tasks := map[3 := Task(3, Origin(1, TaskWork, None, assignee, 0, 0, 1, Some(ROOT), None, 0),
                             if assignee.Some? then TaskQueued else TaskWaiting,
                             None, 0, 0, 0, None, None, None, None, None, false, 1)],
      nextId := 4)
  }

  function Creation(assignee: Option<AgentId>): Step {
    Tasks(StepCreateTask(Boss, 1, 0, assignee, 0, 1, ROOT, None, 0))
  }

  lemma CreationLeads(assignee: Option<AgentId>)
    requires assignee.Some? ==> assignee.value == 0
    ensures Leads(Registration() + [At(Creation(assignee))], Created(assignee))
  {
    hide Leads, Registration, AttemptRegistry, AttemptRuns, AttemptMessages, AttemptGit, AttemptProjections;
    RegistrationLeads();
    Then(Registration(), Registered(), Creation(assignee), Created(assignee));
  }

  function ClaimedRun(): Run {
    Run(4, RunOrigin(1, 3, 0, 1, 5), RunStarting, LaunchIntent, None, None, false, None, None, None,
        TerminalFact(None, "", "", ""), "", CleanupNotNeeded, None, 1)
  }

  function ClaimedTask(): Task {
    Created(Some(0)).tasks[3].(generation := 1, currentRun := Some(4), version := 2)
  }

  function Claimed(): Ledger {
    Created(Some(0)).(runs := map[4 := ClaimedRun()], tasks := map[3 := ClaimedTask()], nextId := 6)
  }

  lemma NobodyRuns(s: Ledger, agent: AgentId)
    requires forall r :: r in s.runs ==> !s.runs[r].OccupiesAgent()
    ensures Occupancy(s, agent) == 0 && |LiveRuns(s)| == 0
  {
    var occupying := set r | r in s.runs && s.runs[r].origin.agent == agent && s.runs[r].OccupiesAgent();
    assert occupying == {};
    assert LiveRuns(s) == {};
  }

  lemma ClaimCommits()
    ensures Claim(Created(Some(0)), 3, 0) == Committed(Claimed())
  {
    NobodyRuns(Created(Some(0)), 0);
    hide Occupancy, LiveRuns;
  }

  const UNCREATED := RuntimeKey(1, 7, 5, None)

  function LaunchedRun(): Run {
    ClaimedRun().(nonce := Some(7), cleanupOperation := Some(8), cleanup := CleanupPending, version := 2)
  }

  function Launched(): Ledger {
    Claimed().(runs := map[4 := LaunchedRun()])
  }

  function Launch(): seq<Event> {
    Registration() + [At(Creation(Some(0)))] + [At(Runs(StepClaim(3)))] + [At(Runs(StepBeginLaunch(4, 1, 7, 8)))]
  }

  lemma LaunchLeads()
    ensures Leads(Launch(), Launched())
  {
    hide Leads, Registration, AttemptRegistry, AttemptTasks, AttemptMessages, AttemptGit, AttemptProjections, Claim;
    CreationLeads(Some(0));
    ClaimCommits();
    Then(Registration() + [At(Creation(Some(0)))], Created(Some(0)), Runs(StepClaim(3)), Claimed());
    Then(Registration() + [At(Creation(Some(0)))] + [At(Runs(StepClaim(3)))],
         Claimed(), Runs(StepBeginLaunch(4, 1, 7, 8)), Launched());
  }

  // ---- a launch that fails, and a replay that is refused ----

  function LaunchFailure(): TerminalInput {
    TerminalInput(1, 5, Some(7), None, RunFailed, TerminalFact(None, "launch", "no image", ""), "")
  }

  function Failed(): Ledger {
    Launched().(runs := map[4 := EndedRun(LaunchedRun(), LaunchFailure())],
                tasks := map[3 := RuntimeFailed(ClaimedTask(), RunFailed, 0)])
  }

  lemma FailureCommits()
    ensures RecordTerminal(Launched(), 4, LaunchFailure(), 0) == Committed(Failed())
  {
    hide WakeAt, Conclude;
    assert Redelivered(Launched().messages, 4, 0) == map[];
  }

  function FailedLaunch(): seq<Event> {
    Launch() + [At(Runs(StepTerminal(4, LaunchFailure())))]
  }

  lemma FailedLaunchLeads()
    ensures Leads(FailedLaunch(), Failed())
  {
    hide Leads, Launch, RecordTerminal, AttemptRegistry, AttemptTasks, AttemptMessages, AttemptGit, AttemptProjections,
         Launched, Failed;
    LaunchLeads();
    FailureCommits();
    Then(Launch(), Launched(), Runs(StepTerminal(4, LaunchFailure())), Failed());
  }

  /** A history from an empty database after which a repeated report of the end of a run, accepted
    before, is refused because its cleanup was blocked in between. */
  lemma ReplayIsRefused(now: Time, later: Time)
    ensures Leads(FailedLaunch(), Failed())
    ensures RecordTerminal(Failed(), 4, LaunchFailure(), now) == Committed(Failed())
    ensures var blocked := RecordCleanup(Failed(), 4, UNCREATED, 8, CleanupBlocked, "down");
            blocked.Committed? && RecordTerminal(blocked.ledger, 4, LaunchFailure(), later) == Aborted(InvalidState)
  {
    hide Leads, FailedLaunch, RecordTerminal, Inv, Reachable;
    FailedLaunchLeads();
    LedToIsReachable(FailedLaunch(), Failed());
    ReachableHolds(Failed());
    assert "no image"[0] == 'n' && "down"[0] == 'd';
    BlockedCleanupRefusesReplay(Failed(), 4, LaunchFailure(), UNCREATED, 8, "down", now, later);
  }

  // ---- a result whose advance fails for good ----

  const CREATED := RuntimeKey(1, 7, 5, Some(9))

  function RunIn(state: RunState, phase: LaunchPhase, version: nat): Run {
    LaunchedRun().(container := Some(9), state := state, phase := phase, version := version)
  }

  function InContainer(): Ledger {
    Launched().(runs := map[4 := RunIn(RunStarting, LaunchCreated, 3)])
  }

  function StartIssued(): Ledger {
    Launched().(runs := map[4 := RunIn(RunStarting, LaunchStartIssued, 4)])
  }

  function RunningTask(): Task {
    ClaimedTask().(status := TaskRunning, version := 3)
  }

  function Running(): Ledger {
    Launched().(runs := map[4 := RunIn(RunActive, LaunchProcessObserved, 5)], tasks := map[3 := RunningTask()])
  }

  function Start(): seq<Event> {
    Launch() + [At(Runs(StepContainerCreated(4, CREATED)))] + [At(Runs(StepStartIssued(4, CREATED)))]
    + [At(Runs(StepActivate(4, CREATED)))]
  }

  lemma StartCommits()
    ensures RecordContainerCreated(Launched(), 4, CREATED) == Committed(InContainer())
    ensures RecordStartIssued(InContainer(), 4, CREATED) == Committed(StartIssued())
    ensures Activate(StartIssued(), 4, CREATED) == Committed(Running())
  {
  }

  lemma StartLeads()
    ensures Leads(Start(), Running())
  {
    hide Leads, Launch, AttemptRegistry, AttemptTasks, AttemptMessages, AttemptGit, AttemptProjections,
         RecordContainerCreated, RecordStartIssued, Activate, Launched, InContainer, StartIssued, Running;
    LaunchLeads();
    StartCommits();
    Then(Launch(), Launched(), Runs(StepContainerCreated(4, CREATED)), InContainer());
    Then(Launch() + [At(Runs(StepContainerCreated(4, CREATED)))],
         InContainer(), Runs(StepStartIssued(4, CREATED)), StartIssued());
    Then(Launch() + [At(Runs(StepContainerCreated(4, CREATED)))] + [At(Runs(StepStartIssued(4, CREATED)))],
         StartIssued(), Runs(StepActivate(4, CREATED)), Running());
  }

  function FinishingTask(): Task {
    RunningTask().(status := TaskFinishing, pending := Some(Pending(Capture, 6, 4, 4, ROOT, None)), version := 4)
  }

  function SubmittingRun(): Run {
    OutcomeRun(RunIn(RunActive, LaunchProcessObserved, 5), OutcomeSubmit, ROOT)
  }

  function Submitting(): Ledger {
    Running().(runs := map[4 := SubmittingRun()], tasks := map[3 := FinishingTask()], nextId := 7)
  }

  function Submit(): Step {
    Runs(StepOutcome(4, OutcomeSubmit, RunningTask(), RunIn(RunActive, LaunchProcessObserved, 5), ROOT))
  }

  function Exit(): TerminalInput {
    TerminalInput(1, 5, Some(7), Some(9), RunExited, TerminalFact(Some(0), "", "", ""), "")
  }

  function Exited(): Ledger {
    Submitting().(runs := map[4 := EndedRun(SubmittingRun(), Exit())])
  }

  lemma ExitCommits()
    ensures RecordTerminal(Submitting(), 4, Exit(), 0) == Committed(Exited())
  {
    hide WakeAt, Conclude;
    assert Redelivered(Submitting().messages, 4, 0) == map[];
  }

  lemma SubmitCommits()
    ensures ApplyOutcome(Running(), 4, OutcomeSubmit, RunningTask(), RunIn(RunActive, LaunchProcessObserved, 5), ROOT)
            == Committed(Submitting())
  {
  }

  function Work(): seq<Event> {
    Start() + [At(Submit())] + [At(Runs(StepTerminal(4, Exit())))]
  }

  lemma WorkLeads()
    ensures Leads(Work(), Exited())
  {
    hide Leads, Start, ApplyOutcome, RecordTerminal, AttemptRegistry, AttemptTasks, AttemptMessages, AttemptGit,
         AttemptProjections, Running, Submitting, Exited;
    StartLeads();
    SubmitCommits();
    Then(Start(), Running(), Submit(), Submitting());
    ExitCommits();
    Then(Start() + [At(Submit())], Submitting(), Runs(StepTerminal(4, Exit())), Exited());
  }

  function Captured(): Ledger {
    Exited().(intents := {FinishingTask()}, refs := map[TaskRef(3, 4) := ROOT],
              facts := {CaptureFact(FinishingTask(), 4, ROOT)})
  }

  function Capturing(): seq<Event> {
    Work() + [At(Git(StepReadIntent(3)))] + [At(Git(StepWriteTaskRef(FinishingTask())))]
    + [At(Git(StepReportCapture(FinishingTask())))]
  }

  function CaptureRead(): Ledger {
    Exited().(intents := {FinishingTask()})
  }

  function RefWritten(): Ledger {
    CaptureRead().(refs := map[TaskRef(3, 4) := ROOT])
  }

  lemma GitCommits()
    ensures ReadIntent(Exited(), 3) == Committed(CaptureRead())
    ensures WriteTaskRef(CaptureRead(), FinishingTask()) == Committed(RefWritten())
    ensures ReportCapture(RefWritten(), FinishingTask()) == Committed(Captured())
  {
  }

  lemma CapturingLeads()
    ensures Leads(Capturing(), Captured())
  {
    hide Leads, Work, AttemptRegistry, AttemptTasks, AttemptRuns, AttemptMessages, AttemptProjections,
         ReadIntent, WriteTaskRef, ReportCapture, Exited, CaptureRead, RefWritten, Captured, FinishingTask;
    WorkLeads();
    GitCommits();
    Then(Work(), Exited(), Git(StepReadIntent(3)), CaptureRead());
    Then(Work() + [At(Git(StepReadIntent(3)))], CaptureRead(), Git(StepWriteTaskRef(FinishingTask())), RefWritten());
    Then(Work() + [At(Git(StepReadIntent(3)))] + [At(Git(StepWriteTaskRef(FinishingTask())))],
         RefWritten(), Git(StepReportCapture(FinishingTask())), Captured());
  }

  function SubmittedTask(): Task {
    SubmittedRow(FinishingTask(), 4, ROOT)
  }

  function Submitted(): Ledger {
    Captured().(tasks := map[3 := SubmittedTask()])
  }

  function Projection(): Step {
    Projections(StepFinalizeCapture(CaptureFact(FinishingTask(), 4, ROOT), ROOT))
  }

  lemma FirstIsIn(ids: seq<MessageId>)
    requires ids != []
    ensures exists m :: m in ids
  {
    assert ids[0] in ids;
  }

  lemma NoMessages(s: Ledger, task: Task, now: Time)
    requires s.messages == map[] && task.origin.project in s.projects && task.origin.parent.None?
    ensures Conclude(s, task, now) == Committed(s)
  {
    var ids := MessagesForTask(s, task.id);
    if ids != [] {
      FirstIsIn(ids);
    }
  }

  lemma CaptureCommits()
    ensures FinalizeCapture(Captured(), CaptureFact(FinishingTask(), 4, ROOT), ROOT, 0) == Committed(Submitted())
  {
    NoMessages(PutTask(Captured(), SubmittedTask()), SubmittedTask(), 0);
    hide Conclude, IntegrationSourceFence, Dispose;
  }

  function AcceptedTask(): Task {
    SubmittedTask().(accepted := Some(0), pending := Some(Pending(Advance, 7, 6, 4, ROOT, Some(ROOT))), version := 6)
  }

  function Accepted(): Ledger {
    Submitted().(tasks := map[3 := AcceptedTask()], nextId := 8)
  }

  function Acceptance(): Step {
    Projections(StepAccept(3, None, SubmittedTask(), Registered().projects[1], ROOT, ROOT))
  }

  lemma AcceptCommits()
    ensures RequestAccept(Submitted(), 3, None, SubmittedTask(), Registered().projects[1], ROOT, ROOT) == Committed(Accepted())
  {
  }

  function Accepting(): seq<Event> {
    Capturing() + [At(Projection())] + [At(Acceptance())]
  }

  lemma AcceptingLeads()
    ensures Leads(Accepting(), Accepted())
  {
    hide Leads, Capturing, FinalizeCapture, RequestAccept, AttemptRegistry, AttemptTasks, AttemptRuns, AttemptMessages,
         AttemptGit, Captured, Submitted, Accepted;
    CapturingLeads();
    CaptureCommits();
    AcceptCommits();
    Then(Capturing(), Captured(), Projection(), Submitted());
    Then(Capturing() + [At(Projection())], Submitted(), Acceptance(), Accepted());
  }

  function Stuck(): Ledger {
    Accepted().(intents := {FinishingTask(), AcceptedTask()},
                facts := {CaptureFact(FinishingTask(), 4, ROOT), AdvanceFailure(AcceptedTask())})
  }

  function FatalAdvanceHistory(): seq<Event> {
    Accepting() + [At(Git(StepReadIntent(3)))] + [At(Git(StepReportAdvanceFailure(AcceptedTask())))]
  }

  lemma StuckLeads()
    ensures Leads(FatalAdvanceHistory(), Stuck())
  {
    hide Leads, Accepting, AttemptRegistry, AttemptTasks, AttemptRuns, AttemptMessages, AttemptProjections;
    AcceptingLeads();
    var s1 := Accepted().(intents := {FinishingTask(), AcceptedTask()});
    Then(Accepting(), Accepted(), Git(StepReadIntent(3)), s1);
    Then(Accepting() + [At(Git(StepReadIntent(3)))], s1, Git(StepReportAdvanceFailure(AcceptedTask())), Stuck());
  }

  function FailedTask(): Task {
    AcceptedTask().(status := TaskFailed, pending := None, version := 7)
  }

  function Stopped(): Ledger {
    FailProject(PutTask(Stuck(), FailedTask()), 1)
  }

  lemma FatalAdvanceCommits()
    ensures ProjectAdvanceFailure(Stuck(), AdvanceFailure(AcceptedTask()), 0) == Committed(Stopped())
  {
    NoMessages(Stopped(), FailedTask(), 0);
    hide Conclude;
  }

  /** A history from an empty database after which projecting a fatal advance takes a submitted task to
    failed, an edge outside the table. */
  lemma FatalAdvanceHappens()
    ensures Leads(FatalAdvanceHistory(), Stuck())
    ensures var tx := ProjectAdvanceFailure(Stuck(), AdvanceFailure(AcceptedTask()), 0);
            tx.Committed? && tx.ledger == Stopped() && 3 in Stuck().tasks && 3 in tx.ledger.tasks
            && Stuck().tasks[3].status == TaskSubmitted && tx.ledger.tasks[3].status == TaskFailed
            && !ValidTaskTransition(TaskWork, TaskSubmitted, TaskFailed)
  {
    hide Leads, FatalAdvanceHistory, ProjectAdvanceFailure;
    StuckLeads();
    FatalAdvanceCommits();
  }

  // ---- a task a human confirms ----

  /** A history from an empty database after which a human's work task goes from waiting to completed, the
    other edge outside the table. */
  lemma ConfirmationHappens()
    ensures Leads(Registration() + [At(Creation(None))], Created(None))
    ensures var tx := CompleteTask(Created(None), 3, 0);
            tx.Committed? && 3 in tx.ledger.tasks
            && Created(None).tasks[3].status == TaskWaiting && tx.ledger.tasks[3].status == TaskCompleted
            && !ValidTaskTransition(TaskWork, TaskWaiting, TaskCompleted)
  {
    hide Leads, Registration;
    CreationLeads(None);
  }
}
