/** The unit of work a transaction writes through (internal/store/tx.go).

  The tables are fields that the operations reassign. An update is a compare-and-set on the
  version and the status the caller read; here that comparison is a precondition, so every
  operation proves that the rows it writes back are the rows it read.
 */
module Store {
  import opened Commits
  import opened Model
  import opened Tables
  import opened RunSteps
  import opened System
  import opened Invariant
  import opened Safety

  /** The keys and the unique index of the schema. */
  ghost predicate Schema(s: Ledger) {
    IdsOk(s) && OneConversation(s)
  }

  lemma SchemaKeys(s: Ledger)
    requires Schema(s)
    ensures forall k :: k in s.tasks ==> s.tasks[k].id == k
    ensures forall k :: k in s.runs ==> s.runs[k].id == k
    ensures forall k :: k in s.messages ==> s.messages[k].id == k
    ensures s.nextId !in s.tasks && s.nextId !in s.messages && s.nextId !in s.runs
  {
  }

  lemma SchemaBounds(s: Ledger)
    requires Schema(s)
    ensures forall m :: m in s.messages ==> m < s.nextId
  {
  }

  lemma SchemaHolds(s: Ledger)
    requires Inv(s)
    ensures Schema(s)
  {
    hide IdsOk, OneConversation;
  }

  lemma SchemaKeepsTask(s: Ledger, task: Task)
    requires Schema(s) && task.id in s.tasks
    requires task.origin == s.tasks[task.id].origin && (task.Open() ==> s.tasks[task.id].Open())
    ensures Schema(PutTask(s, task))
  {
  }

  lemma SchemaKeepsMessage(s: Ledger, message: Message)
    requires Schema(s) && message.id in s.messages
    ensures Schema(PutMessage(s, message))
  {
  }

  lemma SchemaTakesMessage(s: Ledger, s1: Ledger)
    requires Schema(s) && s1 == s.(messages := s1.messages, nextId := s.nextId + 1)
    requires s.nextId in s1.messages && s1.messages[s.nextId].id == s.nextId
    requires s1.messages == s.messages[s.nextId := s1.messages[s.nextId]]
    ensures Schema(s1)
  {
  }

  lemma SchemaKeepsRun(s: Ledger, run: Run)
    requires Schema(s) && run.id in s.runs
    ensures Schema(PutRun(s, run))
  {
  }

  // ---- loops that rewrite messages one by one ----

  /** The messages in `done` have become what they shall be; the others are as they were. */
  ghost predicate Rewriting(
    before: map<MessageId, Message>, now: map<MessageId, Message>, target: map<MessageId, Message>, done: seq<MessageId>
  ) {
    && now.Keys == before.Keys && target.Keys == before.Keys
    && forall m :: m in now ==> now[m] == if m in done then target[m] else before[m]
  }

  lemma NothingRewritten(before: map<MessageId, Message>, target: map<MessageId, Message>)
    requires target.Keys == before.Keys
    ensures Rewriting(before, before, target, [])
  {
  }

  lemma RewriteOne(
    before: map<MessageId, Message>, now: map<MessageId, Message>, target: map<MessageId, Message>, done: seq<MessageId>,
    id: MessageId
  )
    requires Rewriting(before, now, target, done) && id in now && id !in done
    ensures now[id] == before[id] && Rewriting(before, now[id := target[id]], target, done + [id])
  {
  }

  lemma RewrittenAll(
    before: map<MessageId, Message>, now: map<MessageId, Message>, target: map<MessageId, Message>, ids: seq<MessageId>
  )
    requires Rewriting(before, now, target, ids)
    requires forall m :: m in before && m !in ids ==> target[m] == before[m]
    ensures now == target
  {
  }

  class Transaction {
    var projects: map<ProjectId, Project>
    var agents: map<AgentId, AgentStatus>
    var tasks: map<TaskId, Task>
    var runs: map<RunId, Run>
    var messages: map<MessageId, Message>
    var canonical: map<ProjectId, Commit>
    var refs: map<TaskRef, Commit>
    var intents: set<Task>
    var facts: set<GitFact>
    var nextId: nat
    var maxRuns: nat

    /** The tables as one value. */
    function Rows(): Ledger
      reads this
    {
      Ledger(projects, agents, tasks, runs, messages, canonical, refs, intents, facts, nextId, maxRuns)
    }

    ghost predicate Valid()
      reads this
    {
      Inv(Rows())
    }

    /** An empty database. */
    constructor (maxRuns: nat)
      ensures Valid() && Rows() == Empty(maxRuns)
    {
      projects, agents, tasks, runs, messages := map[], map[], map[], map[], map[];
      canonical, refs, intents, facts := map[], map[], {}, {};
      this.nextId, this.maxRuns := 0, maxRuns;
      new;
      EmptyHolds(maxRuns);
    }

    /** Rolls back to the rows the transaction began with. */
    method Rollback(before: Ledger)
      modifies this
      ensures Rows() == before
    {
      projects, agents, tasks, runs, messages, canonical, refs, intents, facts, nextId, maxRuns :=
        before.projects, before.agents, before.tasks, before.runs, before.messages, before.canonical, before.refs,
        before.intents, before.facts, before.nextId, before.maxRuns;
    }

    method NewId() returns (id: nat)
      modifies this`nextId
      ensures id == old(nextId) && nextId == id + 1
    {
      id := nextId;
      nextId := nextId + 1;
    }

    method InsertTask(task: Task)
      requires task.id !in tasks
      modifies this`tasks
      ensures Rows() == PutTask(old(Rows()), task)
    {
      tasks := tasks[task.id := task];
    }

    method UpdateTask(task: Task, expectedVersion: nat, expectedStatus: TaskStatus)
      requires task.id in tasks && tasks[task.id].version == expectedVersion && tasks[task.id].status == expectedStatus
      modifies this`tasks
      ensures Rows() == PutTask(old(Rows()), task)
    {
      tasks := tasks[task.id := task];
    }

    method InsertRun(run: Run)
      requires run.id !in runs
      modifies this`runs
      ensures Rows() == PutRun(old(Rows()), run)
    {
      runs := runs[run.id := run];
    }

    method UpdateRun(run: Run, expectedVersion: nat, expectedState: RunState)
      requires run.id in runs && runs[run.id].version == expectedVersion && runs[run.id].state == expectedState
      modifies this`runs
      ensures Rows() == PutRun(old(Rows()), run)
    {
      runs := runs[run.id := run];
    }

    method UpdateMessage(message: Message, expectedVersion: nat, expectedState: MessageState)
      requires message.id in messages
      requires messages[message.id].version == expectedVersion && messages[message.id].state == expectedState
      modifies this`messages
      ensures Rows() == PutMessage(old(Rows()), message)
    {
      messages := messages[message.id := message];
    }

    method UpdateProject(id: ProjectId, project: Project, expectedVersion: nat)
      requires id in projects && projects[id].version == expectedVersion
      modifies this`projects
      ensures Rows() == PutProject(old(Rows()), id, project)
    {
      projects := projects[id := project];
    }

    /** insertMessage: a new pending message, ready for delivery. */
    method AppendMessage(
      project: ProjectId, task: TaskId, recipient: Recipient, wake: bool, max: nat, now: Time
    )
      modifies this`messages, this`nextId
      ensures Rows() == InsertMessage(old(Rows()), project, task, recipient, wake, max, now)
    {
      var id := NewId();
      messages := messages[id := Message(id, project, task, recipient, wake, MessagePending, None, 0, max, Some(now), 1)];
    }

    /** The Conversation query; the unique index on open conversations leaves at most one row. */
    method FindConversation(project: ProjectId, agent: AgentId) returns (found: Option<TaskId>)
      requires Schema(Rows())
      ensures found == Conversation(Rows(), project, agent)
    {
      if c :| c in tasks && IsOpenConversation(tasks[c], project, agent) {
        found := Some(c);
        ghost var other := Conversation(Rows(), project, agent);
        assert SameConversation(Rows().tasks[c], Rows().tasks[other.value]);
      } else {
        found := None;
      }
    }

    /** The PendingWakeAt query. */
    method PendingWakeAt(task: TaskId) returns (at: Option<Time>)
      ensures at == WakeAt(Rows(), task)
    {
      if m :| m in messages && messages[m].task == task && messages[m].PendingWake()
              && (forall w | w in messages && messages[w].task == task && messages[w].PendingWake() ::
                    messages[m].nextAt.value <= messages[w].nextAt.value) {
        at := messages[m].nextAt;
        assert EarliestWake(Rows(), task, at.value);
        assert forall t :: EarliestWake(Rows(), task, t) ==> t == at.value;
      } else {
        at := None;
        assert forall t :: !EarliestWake(Rows(), task, t);
      }
    }
  }

  /** What the body of a transaction did. After an error the transaction is rolled back, so the
    rows it leaves behind do not matter. */
  ghost predicate Did(specified: Tx, after: Ledger, error: Option<Error>) {
    if error.Some? then specified == Aborted(error.value) else specified == Committed(after)
  }
}
