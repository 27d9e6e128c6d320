/** Who may act on a run inside the daemon: the scheduler, the reconciler, the cleaner, the
  supervisors and the shutdown, interleaved in any way
  (runtime_workers.go, runtime_materialization.go, runtime_monitor.go, runtime_supervisor.go).
 */
module Ownership {
  import opened Model

  type WorkerId = nat
  type Token = nat

  // ---- the shared tables, under their mutex ----

  class Controller {
    var runOperations: map<RunId, Token>
    var monitors: map<RunId, Token>
    var shuttingDown: bool
    var nextToken: Token

    ghost function Tables(): Owners
      reads this
    {
      Owners(runOperations, monitors)
    }

    /** acquireRunOperation */
    method AcquireRunOperation(run: RunId) returns (operation: Option<Token>)
      modifies this`runOperations, this`nextToken
      ensures operation.Some? <==> old(Tables()).Free(run)
      ensures operation.Some? ==> operation.value == old(nextToken) && Tables() == old(Tables()).Acquired(run, operation.value)
      ensures operation.None? ==> Tables() == old(Tables())
      ensures nextToken == old(nextToken) + (if operation.Some? then 1 else 0)
      ensures operation == if run in old(runOperations) || run in old(monitors) then None else Some(old(nextToken))
      ensures runOperations == if operation.Some? then old(runOperations)[run := operation.value] else old(runOperations)
    {
      if run in monitors || run in runOperations {
        return None;
      }
      operation := Some(nextToken);
      nextToken := nextToken + 1;
      runOperations := runOperations[run := operation.value];
    }

    /** releaseRunOperation: only the holder of the token releases. */
    method ReleaseRunOperation(run: RunId, operation: Token)
      modifies this`runOperations
      ensures Tables() == old(Tables()).Released(run, operation)
      ensures runOperations == if run in old(runOperations) && old(runOperations)[run] == operation
                               then old(runOperations) - {run} else old(runOperations)
    {
      if run in runOperations && runOperations[run] == operation {
        runOperations := runOperations - {run};
      }
    }

    /** registerMonitor */
    method RegisterMonitor(run: RunId, monitor: Token) returns (ok: bool)
      modifies this`monitors
      ensures ok <==> run in old(runOperations) && run !in old(monitors)
      ensures Tables() == if ok then old(Tables()).Watched(run, monitor) else old(Tables())
      ensures monitors == if ok then old(monitors)[run := monitor] else old(monitors)
    {
      if run !in runOperations || run in monitors {
        return false;
      }
      monitors := monitors[run := monitor];
      return true;
    }

    /** unregisterMonitor */
    method UnregisterMonitor(run: RunId, monitor: Token)
      modifies this`monitors
      ensures Tables() == old(Tables()).Unwatched(run, monitor)
      ensures monitors == if run in old(monitors) && old(monitors)[run] == monitor then old(monitors) - {run} else old(monitors)
    {
      if run in monitors && monitors[run] == monitor {
        monitors := monitors - {run};
      }
    }
  }

  datatype Owners = Owners(runOperations: map<RunId, Token>, monitors: map<RunId, Token>) {
    predicate Free(run: RunId) {
      run !in monitors && run !in runOperations
    }

    function Acquired(run: RunId, operation: Token): Owners {
      this.(runOperations := runOperations[run := operation])
    }

    function Released(run: RunId, operation: Token): Owners {
      if run in runOperations && runOperations[run] == operation then this.(runOperations := runOperations - {run}) else this
    }

    function Watched(run: RunId, monitor: Token): Owners {
      this.(monitors := monitors[run := monitor])
    }

    function Unwatched(run: RunId, monitor: Token): Owners {
      if run in monitors && monitors[run] == monitor then this.(monitors := monitors - {run}) else this
    }
  }

  // ---- the workers ----

  datatype Purpose = ToClaim | ToRead | ToStop

  /** Where a worker stands. `todo` are runs it read earlier and still has to visit. An owner that
    registered a monitor watches the run itself until it takes the monitor back or a supervisor is
    started with it; then it only has the operation left to release. */
  datatype Worker =
    | Idle
    | Locked(purpose: Purpose)
    | Admitted
    | Claimed(run: RunId)
    | Refused
    | Visiting(todo: set<RunId>)
    | Owning(run: RunId, operation: Token, todo: set<RunId>)
    | Watching(run: RunId, operation: Token, monitor: Token, todo: set<RunId>)
    | Handing(run: RunId, operation: Token, todo: set<RunId>)
    | Supervising(run: RunId, monitor: Token)
    | AdmissionStopped

  datatype World = World(
    owners: Owners,
    shuttingDown: bool,
    claimMu: Option<WorkerId>,
    live: set<RunId>,
    ended: set<RunId>,
    nextRun: RunId,
    nextToken: Token,
    workers: map<WorkerId, Worker>)
  {
    function At(w: WorkerId): Worker {
      if w in workers then workers[w] else Idle
    }

    function Set(w: WorkerId, worker: Worker): World {
      this.(workers := workers[w := worker])
    }

    function Unlock(): World {
      this.(claimMu := None)
    }
  }

  datatype Move =
    | Lock(purpose: Purpose)
    | CheckAdmission
    | CommitClaim(found: bool)
    | OwnClaim
    | ReadLive
    | ReadEnded
    | ReadLiveAtShutdown
    | Visit(run: RunId)
    | EndRun
    | Register
    | Unregister
    | StartSupervisor(supervisor: WorkerId)
    | Release
    | EndSupervision
    | StopAdmission

  predicate HoldsOperation(at: Worker) {
    at.Owning? || at.Watching? || at.Handing?
  }

  predicate HoldsMonitor(at: Worker) {
    at.Watching? || at.Supervising?
  }

  /** One atomic move of one worker. A move that is not its turn changes nothing. */
  function Take(s: World, w: WorkerId, move: Move): World {
    var at := s.At(w);
    match move
    case Lock(purpose) =>
      if at.Idle? && s.claimMu.None? then s.Set(w, Locked(purpose)).(claimMu := Some(w)) else s
    case CheckAdmission =>
      if at != Locked(ToClaim) then s
      else if s.shuttingDown then s.Set(w, Idle).Unlock()
      else s.Set(w, Admitted)
    case CommitClaim(found) =>
      if !at.Admitted? then s
      else if !found then s.Set(w, Idle).Unlock()
      else s.Set(w, Claimed(s.nextRun)).(live := s.live + {s.nextRun}, nextRun := s.nextRun + 1)
    case OwnClaim =>
      if !at.Claimed? then s
      else if !s.owners.Free(at.run) then s.Set(w, Refused).Unlock()
      else
        s.Set(w, Owning(at.run, s.nextToken, {})).Unlock()
        .(owners := s.owners.Acquired(at.run, s.nextToken), nextToken := s.nextToken + 1)
    case ReadLive =>
      if at != Locked(ToRead) then s else s.Set(w, Visiting(s.live)).Unlock()
    case ReadEnded =>
      if at.Idle? then s.Set(w, Visiting(s.ended)) else s
    case ReadLiveAtShutdown =>
      if at.AdmissionStopped? then s.Set(w, Visiting(s.live)) else s
    case Visit(run) =>
      if !at.Visiting? || run !in at.todo then s
      else if !s.owners.Free(run) then s.Set(w, Visiting(at.todo - {run}))
      else
        s.Set(w, Owning(run, s.nextToken, at.todo - {run}))
        .(owners := s.owners.Acquired(run, s.nextToken), nextToken := s.nextToken + 1)
    case EndRun =>
      if HoldsOperation(at) || at.Supervising? then
        s.(live := s.live - {at.run}, ended := s.ended + (if at.run in s.live then {at.run} else {}))
      else s
    case Register =>
      if !at.Owning? || at.run !in s.owners.runOperations || at.run in s.owners.monitors then s
      else
        s.Set(w, Watching(at.run, at.operation, s.nextToken, at.todo))
        .(owners := s.owners.Watched(at.run, s.nextToken), nextToken := s.nextToken + 1)
    case Unregister =>
      if at.Watching? then
        s.Set(w, Owning(at.run, at.operation, at.todo)).(owners := s.owners.Unwatched(at.run, at.monitor))
      else s
    case StartSupervisor(supervisor) =>
      if !at.Watching? || !s.At(supervisor).Idle? then s
      else s.Set(w, Handing(at.run, at.operation, at.todo)).Set(supervisor, Supervising(at.run, at.monitor))
    case Release =>
      if at.Owning? || at.Handing? then
        s.Set(w, Visiting(at.todo)).(owners := s.owners.Released(at.run, at.operation))
      else if at.Visiting? then s.Set(w, Idle)
      else s
    case EndSupervision =>
      if at.Supervising? then s.Set(w, Idle).(owners := s.owners.Unwatched(at.run, at.monitor)) else s
    case StopAdmission =>
      if at != Locked(ToStop) then s else s.Set(w, AdmissionStopped).(shuttingDown := true).Unlock()
  }

  datatype Turn = Turn(worker: WorkerId, move: Move)

  function Play(s: World, turns: seq<Turn>): World
    decreases |turns|
  {
    if turns == [] then s else Play(Take(s, turns[0].worker, turns[0].move), turns[1..])
  }

  /** A fresh daemon over the runs it finds in the database. */
  function Boot(live: set<RunId>, ended: set<RunId>, nextRun: RunId): World {
    World(Owners(map[], map[]), false, None, live, ended, nextRun, 0, map[])
  }

  // ---- what every interleaving keeps ----

  predicate HoldsClaimMu(at: Worker) {
    at.Locked? || at.Admitted? || at.Claimed?
  }

  /** What one worker's position says about the shared state. */
  ghost predicate WorkerFits(s: World, w: WorkerId) {
    var at := s.At(w);
    && !at.Refused?
    && (HoldsClaimMu(at) ==> s.claimMu == Some(w))
    && ((at.Admitted? || at.Claimed?) ==> !s.shuttingDown)
    && (at.AdmissionStopped? ==> s.shuttingDown)
    && (at.Claimed? ==> at.run in s.live && s.owners.Free(at.run) && at.run < s.nextRun)
    && (at.Owning? ==> at.run !in s.owners.monitors)
    && (HoldsOperation(at) ==> at.run in s.owners.runOperations && s.owners.runOperations[at.run] == at.operation)
    && (HoldsMonitor(at) ==> at.run in s.owners.monitors && s.owners.monitors[at.run] == at.monitor)
  }

  /** The runs a worker knows of. */
  function Known(at: Worker): set<RunId> {
    match at
    case Visiting(todo) => todo
    case Owning(run, _, todo) => todo + {run}
    case Watching(run, _, _, todo) => todo + {run}
    case Handing(run, _, todo) => todo + {run}
    case Supervising(run, _) => {run}
    case _ => {}
  }

  /** Two workers never own one run, and a run that was just claimed is known to nobody else. */
  ghost predicate PairFits(s: World, v: WorkerId, w: WorkerId) {
    var a := s.At(v);
    var b := s.At(w);
    && (HoldsOperation(a) && HoldsOperation(b) ==> a.run != b.run)
    && (HoldsMonitor(a) && HoldsMonitor(b) ==> a.run != b.run)
    && (a.Owning? && HoldsMonitor(b) ==> a.run != b.run)
    && (a.Claimed? ==> a.run !in Known(b))
    && (a.Claimed? ==> !b.Claimed?)
  }

  ghost predicate SharedFits(s: World) {
    && (forall r :: r in s.live + s.ended ==> r < s.nextRun)
    && s.live !! s.ended
    && (forall r :: r in s.owners.runOperations ==> s.owners.runOperations[r] < s.nextToken && r < s.nextRun)
    && (forall r :: r in s.owners.monitors ==> s.owners.monitors[r] < s.nextToken && r < s.nextRun)
    && (forall w, r :: r in Known(s.At(w)) ==> r < s.nextRun)
  }

  ghost predicate Fits(s: World) {
    && SharedFits(s)
    && (forall w :: WorkerFits(s, w))
    && (forall v, w :: v != w ==> PairFits(s, v, w))
  }

  ghost predicate Bounded(s: World, at: Worker) {
    forall r :: r in Known(at) ==> r < s.nextRun
  }

  lemma TablesKept(s: World, w: WorkerId, move: Move)
    requires SharedFits(s) && WorkerFits(s, w) && Bounded(s, s.At(w))
    ensures var s1 := Take(s, w, move);
            && (forall r :: r in s1.live + s1.ended ==> r < s1.nextRun)
            && s1.live !! s1.ended
            && (forall r :: r in s1.owners.runOperations ==> s1.owners.runOperations[r] < s1.nextToken && r < s1.nextRun)
            && (forall r :: r in s1.owners.monitors ==> s1.owners.monitors[r] < s1.nextToken && r < s1.nextRun)
  {
    assert forall r :: r in s.live ==> r in s.live + s.ended;
    assert forall r :: r in s.ended ==> r in s.live + s.ended;
    var at := s.At(w);
    if HoldsOperation(at) || at.Supervising? {
      assert at.run in Known(at);
    }
    if at.Visiting? {
      assert Known(at) == at.todo;
    }
  }

  lemma KnownKept(s: World, w: WorkerId, move: Move, v: WorkerId)
    requires SharedFits(s) && WorkerFits(s, w) && Bounded(s, s.At(w)) && Bounded(s, s.At(v))
    ensures Bounded(Take(s, w, move), Take(s, w, move).At(v))
  {
    assert forall r :: r in s.live ==> r in s.live + s.ended;
    assert forall r :: r in s.ended ==> r in s.live + s.ended;
    var at := s.At(w);
    if HoldsOperation(at) {
      assert at.run in Known(at) && at.todo <= Known(at);
    }
    if at.Visiting? {
      assert Known(at) == at.todo;
    }
  }

  lemma SharedKept(s: World, w: WorkerId, move: Move)
    requires SharedFits(s) && WorkerFits(s, w)
    ensures SharedFits(Take(s, w, move))
  {
    TablesKept(s, w, move);
    forall v
      ensures Bounded(Take(s, w, move), Take(s, w, move).At(v))
    {
      KnownKept(s, w, move, v);
    }
    hide Take, Known, WorkerFits;
  }

  lemma OwnPositionKept(s: World, w: WorkerId, move: Move)
    requires SharedFits(s) && WorkerFits(s, w)
    ensures WorkerFits(Take(s, w, move), w)
  {
    assert forall r :: r in s.live ==> r in s.live + s.ended;
  }

  lemma OtherPositionKept(s: World, w: WorkerId, move: Move, v: WorkerId)
    requires SharedFits(s) && v != w && WorkerFits(s, w) && WorkerFits(s, v) && PairFits(s, v, w) && PairFits(s, w, v)
    ensures WorkerFits(Take(s, w, move), v)
  {
    hide SharedFits;
  }

  /** The pair of the moving worker with another one. */
  lemma MovingPairKept(s: World, w: WorkerId, move: Move, b: WorkerId)
    requires SharedFits(s) && w != b && WorkerFits(s, w) && WorkerFits(s, b) && PairFits(s, w, b) && PairFits(s, b, w)
    requires Bounded(s, s.At(w)) && Bounded(s, s.At(b))
    ensures PairFits(Take(s, w, move), w, b) && PairFits(Take(s, w, move), b, w)
  {
    assert s.live !! s.ended;
    hide SharedFits;
  }

  /** A pair of bystanders, one of which may become the supervisor the moving worker starts. */
  lemma RestingPairKept(s: World, w: WorkerId, move: Move, a: WorkerId, b: WorkerId)
    requires a != b && a != w && b != w
    requires WorkerFits(s, w) && WorkerFits(s, a) && WorkerFits(s, b)
    requires PairFits(s, a, b) && PairFits(s, a, w) && PairFits(s, w, a) && PairFits(s, b, w) && PairFits(s, w, b)
    ensures PairFits(Take(s, w, move), a, b)
  {
  }

  lemma PairKept(s: World, w: WorkerId, move: Move, a: WorkerId, b: WorkerId)
    requires Fits(s) && a != b
    ensures PairFits(Take(s, w, move), a, b)
  {
    assert WorkerFits(s, a) && WorkerFits(s, b) && WorkerFits(s, w);
    assert Bounded(s, s.At(a)) && Bounded(s, s.At(b));
    hide Take, WorkerFits, PairFits, SharedFits;
    if w == a {
      MovingPairKept(s, w, move, b);
    } else if w == b {
      MovingPairKept(s, w, move, a);
    } else {
      RestingPairKept(s, w, move, a, b);
    }
  }

  lemma TakeKeeps(s: World, w: WorkerId, move: Move)
    requires Fits(s)
    ensures Fits(Take(s, w, move))
  {
    SharedKept(s, w, move);
    OwnPositionKept(s, w, move);
    hide Take, WorkerFits, PairFits, SharedFits;
    forall v | v != w
      ensures WorkerFits(Take(s, w, move), v)
    {
      assert WorkerFits(s, v) && PairFits(s, v, w) && PairFits(s, w, v);
      OtherPositionKept(s, w, move, v);
    }
    forall a, b | a != b
      ensures PairFits(Take(s, w, move), a, b)
    {
      PairKept(s, w, move, a, b);
    }
  }

  lemma {:induction false} PlayKeeps(s: World, turns: seq<Turn>)
    requires Fits(s)
    ensures Fits(Play(s, turns))
    decreases |turns|
  {
    hide Fits, Take;
    if turns != [] {
      TakeKeeps(s, turns[0].worker, turns[0].move);
      PlayKeeps(Take(s, turns[0].worker, turns[0].move), turns[1..]);
    }
  }

  lemma BootFits(live: set<RunId>, ended: set<RunId>, nextRun: RunId)
    requires live !! ended && forall r :: r in live + ended ==> r < nextRun
    ensures Fits(Boot(live, ended, nextRun))
  {
  }

  // ---- what that means, for every interleaving ----

  predicate Sane(live: set<RunId>, ended: set<RunId>, nextRun: RunId) {
    live !! ended && forall r :: r in live + ended ==> r < nextRun
  }

  /** At most one worker holds the operation of a run and at most one its monitor, and nobody holds the
    operation beside a supervisor, except the one that is just handing the run over. */
  lemma OneOwner(live: set<RunId>, ended: set<RunId>, nextRun: RunId, turns: seq<Turn>, v: WorkerId, w: WorkerId)
    requires Sane(live, ended, nextRun) && v != w
    ensures var s := Play(Boot(live, ended, nextRun), turns); var a := s.At(v); var b := s.At(w);
            && (HoldsOperation(a) && HoldsOperation(b) ==> a.run != b.run)
            && (HoldsMonitor(a) && HoldsMonitor(b) ==> a.run != b.run)
            && (HoldsOperation(a) && b.Supervising? && a.run == b.run ==> a.Handing?)
  {
    BootFits(live, ended, nextRun);
    PlayKeeps(Boot(live, ended, nextRun), turns);
    hide Play;
    assert PairFits(Play(Boot(live, ended, nextRun), turns), v, w);
  }

  /** A claimed run never has an owner already: that branch of claimNext is dead. */
  lemma ClaimIsNeverRefused(live: set<RunId>, ended: set<RunId>, nextRun: RunId, turns: seq<Turn>, w: WorkerId)
    requires Sane(live, ended, nextRun)
    ensures var s := Play(Boot(live, ended, nextRun), turns);
            !s.At(w).Refused? && (s.At(w).Claimed? ==> s.owners.Free(s.At(w).run))
  {
    BootFits(live, ended, nextRun);
    PlayKeeps(Boot(live, ended, nextRun), turns);
    hide Play;
    assert WorkerFits(Play(Boot(live, ended, nextRun), turns), w);
  }

  lemma ClosedStaysClosed(s: World, w: WorkerId, move: Move)
    requires Fits(s) && s.shuttingDown
    ensures Take(s, w, move).shuttingDown && Take(s, w, move).nextRun == s.nextRun
            && Take(s, w, move).live <= s.live
  {
    assert WorkerFits(s, w);
  }

  lemma {:induction false} NoRunAfterStop(s: World, turns: seq<Turn>)
    requires Fits(s) && s.shuttingDown
    ensures Play(s, turns).shuttingDown && Play(s, turns).nextRun == s.nextRun && Play(s, turns).live <= s.live
    decreases |turns|
  {
    hide Fits, Take;
    if turns != [] {
      ClosedStaysClosed(s, turns[0].worker, turns[0].move);
      TakeKeeps(s, turns[0].worker, turns[0].move);
      NoRunAfterStop(Take(s, turns[0].worker, turns[0].move), turns[1..]);
    }
  }

  /** Once stopRuntimeAdmission has returned to any worker, no run is ever claimed again, however the
    others go on: claims that had begun are finished, and none begins. */
  lemma AdmissionIsFinal(
    live: set<RunId>, ended: set<RunId>, nextRun: RunId, before: seq<Turn>, w: WorkerId, after: seq<Turn>
  )
    requires Sane(live, ended, nextRun)
    requires Play(Boot(live, ended, nextRun), before).At(w).AdmissionStopped?
    ensures var s := Play(Boot(live, ended, nextRun), before);
            Play(s, after).nextRun == s.nextRun && Play(s, after).live <= s.live
  {
    BootFits(live, ended, nextRun);
    PlayKeeps(Boot(live, ended, nextRun), before);
    hide Play;
    assert WorkerFits(Play(Boot(live, ended, nextRun), before), w);
    NoRunAfterStop(Play(Boot(live, ended, nextRun), before), after);
  }
}
