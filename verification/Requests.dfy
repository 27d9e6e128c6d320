/** Requests of two transactions with an idempotency key: accept, outcome and create
  (mutation.go, accept.go, outcome.go, task_create.go and service.go in internal/core).

  A call first reads a snapshot, then leaves the database to ask Git, and then applies its effect
  in a second transaction. Any number of calls may share a key, stop anywhere and be repeated;
  other transactions come between them.
 */
module Requests {
  import opened Model
  import opened Tables
  import opened RunSteps
  import opened TaskSteps
  import opened GitSteps
  import opened System
  import opened Invariant
  import opened Evolution
  import opened SendProofs
  import opened Safety
  import opened Store
  import opened Service
  import MessageSteps

  /** actor scope, operation and request ID */
  datatype DedupeKey = DedupeKey(scope: nat, operation: nat, request: nat)

  /** The entity a request answered with, and the fingerprint of its input. */
  datatype DedupeRecord = DedupeRecord(entity: nat, input: nat)

  datatype Call = Call(key: DedupeKey, input: nat)

  datatype Progress =
    | Fresh
    | Snapshotted(rows: Ledger)
    | Answered(entity: nat, mutated: bool)
    | Refused(error: Error)

  /** decodeDedupe: what a recorded key answers to a call. */
  function Answer(record: DedupeRecord, input: nat): Progress {
    if record.input == input then Answered(record.entity, false) else Refused(VersionConflict)
  }

  // ---- one call as it runs ----

  class DedupeTable {
    var records: map<DedupeKey, DedupeRecord>

    /** requestDedupe.replay */
    method Replay(call: Call) returns (answer: Option<Progress>)
      ensures answer == if call.key in records then Some(Answer(records[call.key], call.input)) else None
    {
      if call.key !in records {
        return None;
      }
      var record := records[call.key];
      if record.input != call.input {
        return Some(Refused(VersionConflict));
      }
      return Some(Answered(record.entity, false));
    }

    /** requestDedupe.record */
    method Record(call: Call, entity: nat)
      requires call.key !in records
      modifies this
      ensures records == old(records)[call.key := DedupeRecord(entity, call.input)]
    {
      records := records[call.key := DedupeRecord(entity, call.input)];
    }

    /** The second transaction: the effect and its record are one. `event` is what the call asks for
      after its look at Git, `entity` what it will answer with. */
    method Apply(tx: Transaction, call: Call, event: Event, entity: nat) returns (progress: Progress)
      requires tx.Valid() && IsRequest(event.step)
      modifies this, tx
      ensures tx.Valid()
      ensures (tx.Rows(), records, progress) == Applied(old(tx.Rows()), old(records), call, event, entity)
    {
      hide Inv, Attempt;
      var replayed := Replay(call);
      if replayed.Some? {
        return replayed.value;
      }
      var error := Serve(tx, event);
      if error.Some? {
        return Refused(error.value);
      }
      Record(call, entity);
      return Answered(entity, true);
    }
  }

  /** The rows, the records and the progress after the second transaction. */
  ghost function Applied(
    rows: Ledger, records: map<DedupeKey, DedupeRecord>, call: Call, event: Event, entity: nat
  ): (Ledger, map<DedupeKey, DedupeRecord>, Progress) {
    if call.key in records then (rows, records, Answer(records[call.key], call.input))
    else
      var done := Bundled(rows, event.acknowledging, event.step, event.at);
      if done.Aborted? then (rows, records, Refused(done.error))
      else (done.ledger, records[call.key := DedupeRecord(entity, call.input)], Answered(entity, true))
  }

  // ---- all calls together ----

  type CallId = nat

  datatype World = World(
    rows: Ledger,
    records: map<DedupeKey, DedupeRecord>,
    calls: map<CallId, Call>,
    progress: map<CallId, Progress>)

  datatype Move =
    | Begin(call: Call)
    | First(refused: Option<Error>)
    | Second(event: Event, entity: nat)
    | Elsewhere(event: Event)

  /** The second transaction asks with the versions the first one read. */
  predicate CarriesSnapshot(rows: Ledger, step: Step) {
    match step
    case Runs(StepOutcome(run, _, seenTask, seenRun, _)) =>
      run in rows.runs && seenRun == rows.runs[run]
      && seenRun.origin.task in rows.tasks && seenTask == rows.tasks[seenRun.origin.task]
    case Projections(StepAccept(task, _, seenTask, seenProject, _, _)) =>
      task in rows.tasks && seenTask == rows.tasks[task]
      && seenTask.origin.project in rows.projects && seenProject == rows.projects[seenTask.origin.project]
    case Tasks(StepCreateTask(_, project, seen, _, _, _, _, source, sourceVersion)) =>
      project in rows.projects && seen == rows.projects[project].version
      && (source.Some? ==> source.value in rows.tasks && sourceVersion == rows.tasks[source.value].version)
    case _ => true
  }

  /** One transaction of one call, or of somebody else. A move that is not its turn does nothing. */
  ghost function Take(s: World, id: CallId, move: Move): World {
    match move
    case Begin(call) =>
      if id in s.calls then s else s.(calls := s.calls[id := call], progress := s.progress[id := Fresh])
    case First(refused) =>
      if id !in s.calls || id !in s.progress || !s.progress[id].Fresh? then s
      else if s.calls[id].key in s.records then
        s.(progress := s.progress[id := Answer(s.records[s.calls[id].key], s.calls[id].input)])
      else
        s.(progress := s.progress[id := if refused.Some? then Refused(refused.value) else Snapshotted(s.rows)])
    case Second(event, entity) =>
      if id !in s.calls || id !in s.progress || !s.progress[id].Snapshotted? then s
      else if !CarriesSnapshot(s.progress[id].rows, event.step) then s
      else
        var (rows, records, progress) := Applied(s.rows, s.records, s.calls[id], event, entity);
        s.(rows := rows, records := records, progress := s.progress[id := progress])
    case Elsewhere(event) => s.(rows := Next(s.rows, event))
  }

  datatype Turn = Turn(id: CallId, move: Move)

  ghost function Play(s: World, turns: seq<Turn>): World
    decreases |turns|
  {
    if turns == [] then s else Play(Take(s, turns[0].id, turns[0].move), turns[1..])
  }

  function Start(rows: Ledger): World {
    World(rows, map[], map[], map[])
  }

  // ---- at most once ----

  ghost predicate Mutated(s: World, id: CallId) {
    id in s.calls && id in s.progress && s.progress[id].Answered? && s.progress[id].mutated
  }

  ghost predicate CallFits(s: World, id: CallId) {
    id in s.progress ==>
      && id in s.calls
      && (s.progress[id].Answered? ==>
            && s.calls[id].key in s.records
            && s.records[s.calls[id].key] == DedupeRecord(s.progress[id].entity, s.calls[id].input))
  }

  ghost predicate MutatorsDiffer(s: World) {
    forall a, b | Mutated(s, a) && Mutated(s, b) && s.calls[a].key == s.calls[b].key :: a == b
  }

  /** The call that made the record of a key. */
  ghost predicate MadeBy(s: World, key: DedupeKey, c: CallId) {
    Mutated(s, c) && s.calls[c].key == key
  }

  ghost predicate EveryRecordMade(s: World) {
    forall key :: key in s.records ==> exists c :: MadeBy(s, key, c)
  }

  /** What a call read in its first transaction is an earlier state of the rows. */
  ghost predicate SnapshotsArePast(s: World) {
    forall id :: id in s.progress && s.progress[id].Snapshotted? ==> Kept(s.progress[id].rows, s.rows)
  }

  ghost predicate Fits(s: World) {
    && Inv(s.rows)
    && SnapshotsArePast(s)
    && EveryRecordMade(s)
    && (forall id :: CallFits(s, id))
    && MutatorsDiffer(s)
    && (forall id :: Mutated(s, id) ==> s.calls[id].key in s.records)
  }

  lemma CallsKept(s: World, id: CallId, move: Move)
    requires Fits(s)
    ensures forall c: CallId :: CallFits(Take(s, id, move), c)
    ensures MutatorsDiffer(Take(s, id, move))
    ensures forall c :: Mutated(Take(s, id, move), c) ==> Take(s, id, move).calls[c].key in Take(s, id, move).records
  {
    hide Inv, Next, Bundled, EveryRecordMade;
    var s1 := Take(s, id, move);
    assert CallFits(s, id);
    forall c
      ensures CallFits(s1, c)
    {
      assert CallFits(s, c);
    }
    forall c | c != id && Mutated(s1, c)
      ensures Mutated(s, c)
    {
    }
  }

  lemma MutatorsStay(s: World, id: CallId, move: Move, c: CallId)
    requires Mutated(s, c)
    ensures Mutated(Take(s, id, move), c) && Take(s, id, move).calls[c] == s.calls[c]
  {
    hide Next, Bundled;
  }

  lemma RecordsMade(s: World, id: CallId, move: Move)
    requires EveryRecordMade(s)
    ensures EveryRecordMade(Take(s, id, move))
  {
    var s1 := Take(s, id, move);
    forall key | key in s1.records
      ensures exists c :: MadeBy(s1, key, c)
    {
      if key in s.records {
        var c :| MadeBy(s, key, c);
        MutatorsStay(s, id, move, c);
        assert MadeBy(s1, key, c);
      } else {
        NewRecordMade(s, id, move, key);
      }
    }
    hide Take, Mutated;
  }

  lemma NewRecordMade(s: World, id: CallId, move: Move, key: DedupeKey)
    requires key !in s.records && key in Take(s, id, move).records
    ensures MadeBy(Take(s, id, move), key, id)
  {
    hide Next, Bundled;
  }

  lemma RowsKept(s: World, id: CallId, move: Move)
    requires Inv(s.rows)
    ensures Inv(Take(s, id, move).rows)
  {
    hide Inv, Bundled;
    if move.Elsewhere? {
      NextKeeps(s.rows, move.event);
    } else if move.Second? {
      NextKeeps(s.rows, move.event);
      CommittedIsNext(s.rows, move.event);
    }
  }

  lemma RowsOnlyEvolve(s: World, id: CallId, move: Move)
    requires Inv(s.rows)
    ensures Kept(s.rows, Take(s, id, move).rows)
  {
    hide Inv, Bundled, Evolves, CarriesSnapshot;
    EvolvesReflexive(s.rows);
    if move.Elsewhere? {
      NextKeeps(s.rows, move.event);
    } else if move.Second? {
      NextKeeps(s.rows, move.event);
      CommittedIsNext(s.rows, move.event);
    }
  }

  lemma SnapshotsStayPast(s: World, id: CallId, move: Move)
    requires Inv(s.rows) && SnapshotsArePast(s)
    ensures SnapshotsArePast(Take(s, id, move))
  {
    hide Inv, Evolves;
    var s1 := Take(s, id, move);
    RowsOnlyEvolve(s, id, move);
    EvolvesReflexive(s.rows);
    forall c | c in s1.progress && s1.progress[c].Snapshotted?
      ensures Kept(s1.progress[c].rows, s1.rows)
    {
      SnapshotTaken(s, id, move, c);
      KeptTransitive(s1.progress[c].rows, s.rows, s1.rows);
    }
    hide Take;
  }

  lemma SnapshotTaken(s: World, id: CallId, move: Move, c: CallId)
    requires c in Take(s, id, move).progress && Take(s, id, move).progress[c].Snapshotted?
    ensures var seen := Take(s, id, move).progress[c].rows;
            seen == s.rows || (c in s.progress && s.progress[c] == Snapshotted(seen))
  {
    hide Next, Bundled, CarriesSnapshot;
  }

  lemma CommittedIsNext(rows: Ledger, event: Event)
    ensures var done := Bundled(rows, event.acknowledging, event.step, event.at);
            done.Committed? ==> done.ledger == Next(rows, event)
  {
    hide Bundled;
  }

  /** The rows whose versions a step compares are those of the snapshot. */
  ghost predicate SawTheseRows(seen: Ledger, rows: Ledger, step: Step) {
    match step
    case Runs(StepOutcome(run, _, _, _, _)) =>
      run in seen.runs && run in rows.runs && rows.runs[run] == seen.runs[run]
      && rows.runs[run].origin.task in seen.tasks && rows.runs[run].origin.task in rows.tasks
      && rows.tasks[rows.runs[run].origin.task] == seen.tasks[rows.runs[run].origin.task]
    case Projections(StepAccept(task, _, _, _, _, _)) =>
      task in seen.tasks && task in rows.tasks && rows.tasks[task] == seen.tasks[task]
      && rows.tasks[task].origin.project in seen.projects && rows.tasks[task].origin.project in rows.projects
      && rows.projects[rows.tasks[task].origin.project] == seen.projects[rows.tasks[task].origin.project]
    case Tasks(StepCreateTask(creator, project, _, _, _, _, _, source, _)) =>
      (creator.ByRun? ==>
         project in seen.projects && project in rows.projects && rows.projects[project] == seen.projects[project])
      && (source.Some? ==>
            source.value in seen.tasks && source.value in rows.tasks && rows.tasks[source.value] == seen.tasks[source.value])
    case _ => true
  }

  lemma FencesSeeTheSnapshot(seen: Ledger, rows: Ledger, step: Step, now: Time)
    requires Evolves(seen, rows) && CarriesSnapshot(seen, step) && Attempt(rows, step, now).Committed?
    ensures SawTheseRows(seen, rows, step)
  {
    hide GitEvolves, MessagesEvolve, AttemptRegistry, AttemptMessages, AttemptGit;
    match step
    case Runs(StepOutcome(run, _, _, _, _)) => hide AttemptTasks, AttemptProjections;
    case Projections(StepAccept(task, _, _, _, _, _)) => hide AttemptTasks, AttemptRuns;
    case Tasks(StepCreateTask(_, _, _, _, _, _, _, _, _)) => hide AttemptRuns, AttemptProjections;
    case _ =>
  }

  /** An effect meets the rows its call looked at: between the two transactions of a call that
    mutates, neither the task, the run, the project nor the source it compares was ever written,
    however often it changed hands. */
  lemma EffectMeetsItsSnapshot(rows: Ledger, turns: seq<Turn>, id: CallId, event: Event, entity: nat)
    requires Inv(rows)
    requires var s := Play(Start(rows), turns);
             && id in s.calls && id in s.progress && s.progress[id].Snapshotted?
             && Take(s, id, Second(event, entity)).progress[id] == Answered(entity, true)
    ensures var s := Play(Start(rows), turns);
            var acknowledged := if event.acknowledging.None? then Committed(s.rows)
                                else MessageSteps.Acknowledge(s.rows, event.acknowledging.value.project,
                                                              event.acknowledging.value.agent, event.acknowledging.value.ids);
            acknowledged.Committed? && SawTheseRows(s.progress[id].rows, acknowledged.ledger, event.step)
  {
    hide Inv, Play, Attempt, SawTheseRows, Evolves, CarriesSnapshot;
    PlayKeepsFits(rows, turns);
    var s := Play(Start(rows), turns);
    var seen := s.progress[id].rows;
    if event.acknowledging.None? {
      FencesSeeTheSnapshot(seen, s.rows, event.step, event.at);
    } else {
      var a := event.acknowledging.value;
      AcknowledgeKeeps(s.rows, a.project, a.agent, a.ids);
      var s1 := MessageSteps.Acknowledge(s.rows, a.project, a.agent, a.ids).ledger;
      EvolvesTransitive(seen, s.rows, s1);
      FencesSeeTheSnapshot(seen, s1, event.step, event.at);
    }
  }

  lemma PlayKeepsFits(rows: Ledger, turns: seq<Turn>)
    requires Inv(rows)
    ensures Fits(Play(Start(rows), turns))
  {
    hide Inv;
    PlayKeeps(Start(rows), turns);
  }

  lemma {:induction false} PlayKeeps(s: World, turns: seq<Turn>)
    requires Fits(s)
    ensures Fits(Play(s, turns))
    decreases |turns|
  {
    hide Inv, Take, CallFits, MutatorsDiffer, Mutated, EveryRecordMade, SnapshotsArePast;
    if turns != [] {
      RowsKept(s, turns[0].id, turns[0].move);
      SnapshotsStayPast(s, turns[0].id, turns[0].move);
      CallsKept(s, turns[0].id, turns[0].move);
      RecordsMade(s, turns[0].id, turns[0].move);
      PlayKeeps(Take(s, turns[0].id, turns[0].move), turns[1..]);
    }
  }

  /** Whatever the interleaving: of the calls that share a key at most one mutates; every call that
    succeeds answers with that one's entity and had that one's input; so a call with a different
    input neither mutates nor succeeds. */
  lemma AtMostOnce(rows: Ledger, turns: seq<Turn>, a: CallId, b: CallId)
    requires Inv(rows)
    ensures var s := Play(Start(rows), turns);
            && (Mutated(s, a) && Mutated(s, b) && s.calls[a].key == s.calls[b].key ==> a == b)
            && (a in s.progress && b in s.progress && s.progress[a].Answered? && s.progress[b].Answered? ==>
                  a in s.calls && b in s.calls
                  && (s.calls[a].key == s.calls[b].key ==>
                        s.progress[a].entity == s.progress[b].entity && s.calls[a].input == s.calls[b].input))
            && (a in s.progress && s.progress[a].Answered? ==>
                  a in s.calls && exists c :: MadeBy(s, s.calls[a].key, c))
            && Inv(s.rows)
  {
    hide Inv;
    PlayKeeps(Start(rows), turns);
    var s := Play(Start(rows), turns);
    hide Play;
    assert CallFits(s, a) && CallFits(s, b);
  }

  lemma RecordsStay(s: World, id: CallId, move: Move, key: DedupeKey)
    requires Fits(s) && key in s.records
    ensures key in Take(s, id, move).records && Take(s, id, move).records[key] == s.records[key]
  {
    hide Inv, Next, Bundled, CallFits, Mutated, MutatorsDiffer;
  }

  /** Once a key is recorded no call with that key changes a row any more. */
  lemma RecordedIsInert(s: World, id: CallId, move: Move)
    requires id in s.calls && s.calls[id].key in s.records && !move.Elsewhere?
    ensures Take(s, id, move).rows == s.rows && Take(s, id, move).records == s.records
  {
    hide Bundled;
  }
}
