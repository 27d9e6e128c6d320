/** The durable state: the tables, the refs of the control repositories, and the Git
  facts that were observed but not yet projected into the tables.
 */
module Tables {
  import opened Commits
  import opened Model

  /** What a Git call reported for the intent it was given. The intent is the task row as the
    reconciler read it, possibly long before the call. A fact may be projected at any later
    time, more than once, or (after a crash) never; so intents and facts are never removed. */
  datatype GitFact =
    | CaptureFact(intent: Task, run: RunId, head: Commit)
    | CaptureFailure(intent: Task, run: RunId, fatal: bool)
    | AdvanceFact(intent: Task, outcome: AdvanceOutcome, actual: Commit)
    | AdvanceFailure(intent: Task)

  datatype Ledger = Ledger(
    projects: map<ProjectId, Project>,
    agents: map<AgentId, AgentStatus>,
    tasks: map<TaskId, Task>,
    runs: map<RunId, Run>,
    messages: map<MessageId, Message>,
    canonical: map<ProjectId, Commit>,
    refs: map<TaskRef, Commit>,
    intents: set<Task>,
    facts: set<GitFact>,
    nextId: nat,
    maxRuns: nat)

  /** The result of one transaction: all of its writes, or none of them and an error. */
  datatype Tx = Committed(ledger: Ledger) | Aborted(error: Error) {
    predicate IsFailure() {
      Aborted?
    }

    function PropagateFailure(): Tx
      requires Aborted?
    {
      this
    }

    function Extract(): Ledger
      requires Committed?
    {
      ledger
    }

    /** The state after the transaction: an aborted one is rolled back. */
    function From(before: Ledger): Ledger {
      if Committed? then ledger else before
    }
  }

  function Check(condition: bool, error: Error, s: Ledger): Tx {
    if condition then Committed(s) else Aborted(error)
  }

  function PutTask(s: Ledger, task: Task): Ledger {
    s.(tasks := s.tasks[task.id := task])
  }

  function PutRun(s: Ledger, run: Run): Ledger {
    s.(runs := s.runs[run.id := run])
  }

  function PutMessage(s: Ledger, message: Message): Ledger {
    s.(messages := s.messages[message.id := message])
  }

  function PutProject(s: Ledger, id: ProjectId, project: Project): Ledger {
    s.(projects := s.projects[id := project])
  }

  function ProjectIsActive(s: Ledger, id: ProjectId): bool {
    id in s.projects && s.projects[id].status == ProjectActive
  }

  predicate IsOpenConversation(task: Task, project: ProjectId, agent: AgentId) {
    task.origin.kind == TaskConversation && task.origin.project == project
    && task.origin.assignee == Some(agent) && task.Open()
  }

  /** The open conversation of an agent in a project. */
  ghost function Conversation(s: Ledger, project: ProjectId, agent: AgentId): (r: Option<TaskId>)
    ensures r.Some? ==> r.value in s.tasks && IsOpenConversation(s.tasks[r.value], project, agent)
    ensures r.None? ==> forall c :: c in s.tasks ==> !IsOpenConversation(s.tasks[c], project, agent)
  {
    if exists c :: c in s.tasks && IsOpenConversation(s.tasks[c], project, agent) then
      var c :| c in s.tasks && IsOpenConversation(s.tasks[c], project, agent);
      Some(c)
    else None
  }

  /** The messages of a task with an ID below `n`, in the order (created_at, id) of the query:
    IDs are issued in creation order. */
  function MessagesBelow(s: Ledger, task: TaskId, n: nat): (ids: seq<MessageId>)
    ensures forall m :: m in ids ==> m in s.messages && s.messages[m].task == task && m < n
    ensures forall m :: m in s.messages && s.messages[m].task == task && m < n ==> m in ids
  {
    if n == 0 then []
    else
      MessagesBelow(s, task, n - 1)
      + (if n - 1 in s.messages && s.messages[n - 1].task == task then [n - 1] else [])
  }

  /** MessagesForTask */
  function MessagesForTask(s: Ledger, task: TaskId): seq<MessageId> {
    MessagesBelow(s, task, s.nextId)
  }

  /** MessagesForRun, in the same order. */
  function DeliveredBelow(s: Ledger, run: RunId, n: nat): (ids: seq<MessageId>)
    ensures forall m :: m in ids <==> m in s.messages && s.messages[m].deliveredRun == Some(run) && m < n
  {
    if n == 0 then []
    else
      DeliveredBelow(s, run, n - 1)
      + (if n - 1 in s.messages && s.messages[n - 1].deliveredRun == Some(run) then [n - 1] else [])
  }

  function MessagesForRun(s: Ledger, run: RunId): seq<MessageId> {
    DeliveredBelow(s, run, s.nextId)
  }

  function LiveRuns(s: Ledger): set<RunId> {
    set r | r in s.runs && s.runs[r].Live()
  }

  /** Inserts a new pending message that may be delivered at once. */
  function InsertMessage(
    s: Ledger, project: ProjectId, task: TaskId, recipient: Recipient, wake: bool, max: nat, now: Time
  ): Ledger {
    var message := Message(s.nextId, project, task, recipient, wake, MessagePending, None, 0, max, Some(now), 1);
    PutMessage(s, message).(nextId := s.nextId + 1)
  }

  /** Both queries list every message once. */
  lemma {:induction false} MessagesDiffer(s: Ledger, task: TaskId, n: nat, i: nat, j: nat)
    requires i < j < |MessagesBelow(s, task, n)|
    ensures MessagesBelow(s, task, n)[i] < MessagesBelow(s, task, n)[j]
  {
    var rest := MessagesBelow(s, task, n - 1);
    if j < |rest| {
      MessagesDiffer(s, task, n - 1, i, j);
    } else {
      assert rest[i] in rest;
    }
  }

  lemma {:induction false} DeliveredDiffer(s: Ledger, run: RunId, n: nat, i: nat, j: nat)
    requires i < j < |DeliveredBelow(s, run, n)|
    ensures DeliveredBelow(s, run, n)[i] < DeliveredBelow(s, run, n)[j]
  {
    var rest := DeliveredBelow(s, run, n - 1);
    if j < |rest| {
      DeliveredDiffer(s, run, n - 1, i, j);
    } else {
      assert rest[i] in rest;
    }
  }

  ghost predicate NoRepeats(ids: seq<MessageId>) {
    forall i :: 0 <= i < |ids| ==> ids[i] !in ids[..i]
  }

  lemma NotBefore(ids: seq<MessageId>, i: nat)
    requires NoRepeats(ids) && i < |ids|
    ensures ids[i] !in ids[..i] && ids[..i + 1] == ids[..i] + [ids[i]]
  {
  }

  lemma QueriesHaveNoRepeats(s: Ledger, task: TaskId, run: RunId)
    ensures NoRepeats(MessagesForTask(s, task)) && NoRepeats(MessagesForRun(s, run))
  {
    forall i, j | 0 <= i < j < |MessagesForTask(s, task)|
      ensures MessagesForTask(s, task)[i] != MessagesForTask(s, task)[j]
    {
      MessagesDiffer(s, task, s.nextId, i, j);
    }
    forall i, j | 0 <= i < j < |MessagesForRun(s, run)|
      ensures MessagesForRun(s, run)[i] != MessagesForRun(s, run)[j]
    {
      DeliveredDiffer(s, run, s.nextId, i, j);
    }
  }
}
