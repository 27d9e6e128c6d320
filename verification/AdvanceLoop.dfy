/** Advancing the canonical ref of a control repository (Advance in internal/gitrepo/result.go).

  Other writers may act before every Git command. They are given by a schedule: the commits
  they will move the canonical ref to, one per command at most. As in the service, a writer of
  the canonical ref only ever fast-forwards it; an entry that would not is skipped.
 */
module AdvanceLoop {
  import opened Commits
  import opened Model
  import opened GitSteps

  datatype AdvanceResult =
    | Advanced(outcome: AdvanceOutcome, actual: Commit)
    | Broken

  /** A compare-and-set of the canonical ref that took place. */
  datatype Write = Write(from: Commit, to: Commit)

  /** Where another writer that may act moves the ref. */
  function Moved(current: Commit, schedule: seq<Commit>): Commit {
    if schedule != [] && IsAncestor(current, schedule[0]) then schedule[0] else current
  }

  function Rest(schedule: seq<Commit>): seq<Commit> {
    if schedule == [] then [] else schedule[1..]
  }

  /** The result of an advance that has `attempts` compare-and-sets left. */
  function Race(current: Commit, schedule: seq<Commit>, target: Commit, attempts: nat): AdvanceResult
    decreases attempts
  {
    var actual := Moved(current, schedule);
    var later := Rest(schedule);
    if IsAncestor(target, actual) then Advanced(AdvanceIncluded, actual)
    else if attempts == 0 || !IsAncestor(actual, target) then Advanced(AdvanceStale, actual)
    else if Moved(actual, later) != actual then Race(Moved(actual, later), Rest(later), target, attempts - 1)
    else if Moved(target, Rest(later)) == target then Advanced(AdvanceUpdated, target)
    else Race(Moved(target, Rest(later)), Rest(Rest(later)), target, attempts - 1)
  }

  /** Before the first look and between every later look and its compare-and-set, another writer leaves
    the ref behind the target, and before each compare-and-set one moves it. */
  predicate LosesEvery(current: Commit, schedule: seq<Commit>, target: Commit, attempts: nat)
    decreases attempts
  {
    var actual := Moved(current, schedule);
    var later := Rest(schedule);
    && IsAncestor(actual, target) && !IsAncestor(target, actual)
    && (attempts == 0
        || (Moved(actual, later) != actual && LosesEvery(Moved(actual, later), Rest(later), target, attempts - 1)))
  }

  /** Stale although the target could still be fast-forwarded to. */
  predicate InexactStale(result: AdvanceResult, target: Commit) {
    result.Advanced? && result.outcome == AdvanceStale && IsAncestor(result.actual, target)
  }

  lemma {:induction false} TargetIsKept(current: Commit, schedule: seq<Commit>, target: Commit, attempts: nat)
    requires IsAncestor(target, current)
    ensures Race(current, schedule, target, attempts) == Advanced(AdvanceIncluded, Moved(current, schedule))
  {
    hide IsAncestor;
    AncestorReflexive(current);
    AncestorTransitive(target, current, Moved(current, schedule));
  }

  /** An advance reports an inexact Stale if and only if it loses every one of its races. */
  lemma {:induction false} InexactStaleIsExact(current: Commit, schedule: seq<Commit>, target: Commit, attempts: nat)
    ensures InexactStale(Race(current, schedule, target, attempts), target) <==> LosesEvery(current, schedule, target, attempts)
    decreases attempts
  {
    hide IsAncestor;
    var actual := Moved(current, schedule);
    var later := Rest(schedule);
    if attempts > 0 && IsAncestor(actual, target) && !IsAncestor(target, actual) {
      if Moved(actual, later) != actual {
        InexactStaleIsExact(Moved(actual, later), Rest(later), target, attempts - 1);
      } else {
        AncestorReflexive(target);
        var next := Moved(target, Rest(later));
        if next != target {
          TargetIsKept(next, Rest(Rest(later)), target, attempts - 1);
        }
      }
    }
  }

  class ControlRepo {
    var canonical: Option<Commit>
    var taskRefs: map<TaskRef, Commit>
    var schedule: seq<Commit>
    ghost var moves: nat
    ghost var writes: seq<Write>

    /** One chance for another writer. */
    method OthersAct()
      modifies this`canonical, this`schedule, this`moves
      ensures canonical.Some? == old(canonical).Some?
      ensures old(canonical).Some? ==> IsAncestor(old(canonical).value, canonical.value)
      ensures moves == old(moves) + (if canonical == old(canonical) then 0 else 1)
      ensures old(canonical).Some? ==> canonical.value == Moved(old(canonical).value, old(schedule))
      ensures schedule == Rest(old(schedule))
    {
      if schedule != [] {
        if canonical.Some? && IsAncestor(canonical.value, schedule[0]) {
          if canonical.value != schedule[0] {
            moves := moves + 1;
          }
          canonical := Some(schedule[0]);
        }
        schedule := schedule[1..];
      }
    }

    /** resolveRef of the canonical ref */
    method ResolveCanonical() returns (actual: Option<Commit>)
      modifies this`canonical, this`schedule, this`moves
      ensures actual == canonical
      ensures canonical.Some? == old(canonical).Some?
      ensures old(canonical).Some? ==> IsAncestor(old(canonical).value, canonical.value)
      ensures moves == old(moves) + (if canonical == old(canonical) then 0 else 1)
      ensures old(canonical).Some? ==> canonical.value == Moved(old(canonical).value, old(schedule))
      ensures schedule == Rest(old(schedule))
    {
      OthersAct();
      actual := canonical;
    }

    /** update-ref with an expected old value: it succeeds exactly when nobody was faster. */
    method CompareAndSet(expected: Commit, target: Commit) returns (ok: bool)
      requires canonical.Some? && IsAncestor(expected, target)
      modifies this`canonical, this`schedule, this`moves, this`writes
      ensures canonical.Some? && IsAncestor(old(canonical).value, canonical.value)
      ensures ok ==> canonical == Some(target) && writes == old(writes) + [Write(expected, target)]
      ensures !ok ==> writes == old(writes)
      ensures old(canonical) == Some(expected) ==> moves == old(moves) + (if ok then 0 else 1)
      ensures moves >= old(moves)
      ensures ok <==> Moved(old(canonical).value, old(schedule)) == expected
      ensures !ok ==> canonical.value == Moved(old(canonical).value, old(schedule))
      ensures schedule == Rest(old(schedule))
    {
      ghost var before := canonical.value;
      OthersAct();
      ok := canonical == Some(expected);
      if ok {
        AncestorTransitive(before, expected, target);
      }
      AncestorReflexive(target);
      if ok {
        canonical := Some(target);
        writes := writes + [Write(expected, target)];
      }
    }

    /** Every write of ours moves the ref forward to the target. */
    ghost predicate OnlyFastForwards(before: seq<Write>, target: Commit)
      reads this
    {
      before <= writes
      && forall i :: |before| <= i < |writes| ==> writes[i].to == target && IsAncestor(writes[i].from, target)
    }

    /** Where one observation of the canonical ref leaves an advance. */
    ghost predicate Decided(before: Commit, target: Commit, result: AdvanceResult)
      reads this
    {
      result.Advanced? && canonical.Some? && AdvanceEffect(before, target, canonical.value, result.outcome, result.actual)
    }

    /** One turn of the loop of Advance: a result, a compare-and-set that came too late, or a
      write that others have built on already. */
    method TryOnce(ghost before: Commit, target: Commit, ghost left: nat) returns (result: Option<AdvanceResult>, ghost late: bool)
      requires canonical.Some? && IsAncestor(before, canonical.value)
      modifies this`canonical, this`schedule, this`moves, this`writes
      ensures canonical.Some? && IsAncestor(before, canonical.value)
      ensures OnlyFastForwards(old(writes), target)
      ensures moves >= old(moves) + (if late then 1 else 0)
      ensures result.Some? ==> !late && result.value.Advanced? && Decided(before, target, result.value)
      ensures IsAncestor(target, old(canonical).value) ==> result.Some? && result.value.outcome == AdvanceIncluded
      ensures result.None? ==> late || IsAncestor(target, canonical.value)
      ensures result.Some? && result.value.outcome == AdvanceStale ==> !IsAncestor(result.value.actual, target)
      ensures Race(old(canonical).value, old(schedule), target, left + 1) ==
                if result.Some? then result.value else Race(canonical.value, schedule, target, left)
    {
      hide IsAncestor;
      late := false;
      AncestorReflexive(target);
      ghost var first := canonical.value;
      var actual := ResolveCanonical();
      AncestorTransitive(before, first, actual.value);
      AncestorReflexive(actual.value);
      if IsAncestor(target, first) {
        AncestorTransitive(target, first, actual.value);
      }
      if actual.value == target || IsAncestor(target, actual.value) {
        return Some(Advanced(AdvanceIncluded, actual.value)), late;
      }
      if !IsAncestor(actual.value, target) {
        return Some(Advanced(AdvanceStale, actual.value)), late;
      }
      var ok := CompareAndSet(actual.value, target);
      AncestorTransitive(before, actual.value, canonical.value);
      if !ok {
        return None, true;
      }
      var readBack := ResolveCanonical();
      AncestorTransitive(before, target, canonical.value);
      if readBack == Some(target) {
        return Some(Advanced(AdvanceUpdated, target)), late;
      }
      return None, late;
    }

    /** Advance. `lost` counts the compare-and-sets that came too late. Stale means exactly that the two
      commits are incomparable, unless all three came too late, each after a move of somebody else;
      and then, and only then, it may not. */
    method Advance(ref: TaskRef, target: Commit) returns (result: AdvanceResult, ghost lost: nat)
      modifies this`canonical, this`schedule, this`moves, this`writes
      ensures OnlyFastForwards(old(writes), target)
      ensures result.Broken? <==> old(canonical).None? || ref !in taskRefs || taskRefs[ref] != target
      ensures result.Advanced? ==>
                && Decided(old(canonical).value, target, result)
                && result == Race(old(canonical).value, old(schedule), target, 3)
      ensures lost <= 3 && lost <= moves - old(moves)
      ensures result.Advanced? && moves - old(moves) < 3 ==>
                (result.outcome == AdvanceStale <==>
                   !IsAncestor(target, result.actual) && !IsAncestor(result.actual, target))
      ensures InexactStale(result, target) ==> lost == 3
      ensures result.Advanced? ==>
                (InexactStale(result, target) <==> LosesEvery(old(canonical).value, old(schedule), target, 3))
    {
      hide IsAncestor, Decided, AdvanceEffect, Race, LosesEvery;
      lost := 0;
      if ref !in taskRefs || taskRefs[ref] != target || canonical.None? {
        return Broken, lost;
      }
      ghost var before := canonical.value;
      AncestorReflexive(before);
      InexactStaleIsExact(before, schedule, target, 3);
      for attempt := 0 to 3
        invariant canonical.Some? && IsAncestor(before, canonical.value)
        invariant OnlyFastForwards(old(writes), target)
        invariant lost <= attempt && old(moves) + lost <= moves
        invariant lost == attempt || IsAncestor(target, canonical.value)
        invariant Race(before, old(schedule), target, 3) == Race(canonical.value, schedule, target, 3 - attempt)
      {
        var settled;
        ghost var late;
        settled, late := TryOnce(before, target, 2 - attempt);
        if settled.Some? {
          DecidedStale(before, target, settled.value);
          return settled.value, lost;
        }
        if late {
          lost := lost + 1;
        }
      }
      result := ClassifyAfterLoss(before, target);
      DecidedStale(before, target, result);
    }

    lemma DecidedStale(before: Commit, target: Commit, result: AdvanceResult)
      requires Decided(before, target, result)
      ensures result.outcome == AdvanceStale <==> !IsAncestor(target, result.actual)
    {
      AncestorReflexive(target);
    }

    /** The last look at the ref after three attempts. */
    method ClassifyAfterLoss(ghost before: Commit, target: Commit) returns (result: AdvanceResult)
      requires canonical.Some? && IsAncestor(before, canonical.value)
      modifies this`canonical, this`schedule, this`moves
      ensures result.Advanced? && Decided(before, target, result) && moves >= old(moves)
      ensures IsAncestor(target, old(canonical).value) ==> result.outcome == AdvanceIncluded
      ensures result == Race(old(canonical).value, old(schedule), target, 0)
    {
      hide IsAncestor;
      AncestorReflexive(target);
      ghost var first := canonical.value;
      var actual := ResolveCanonical();
      AncestorTransitive(before, first, actual.value);
      AncestorReflexive(actual.value);
      if IsAncestor(target, first) {
        AncestorTransitive(target, first, actual.value);
      }
      if actual.value == target || IsAncestor(target, actual.value) {
        return Advanced(AdvanceIncluded, actual.value);
      }
      return Advanced(AdvanceStale, actual.value);
    }
  }

  // ---- without other writers ----

  /** Undisturbed, the three outcomes are exactly: the target is contained already, the canonical
    commit is a proper ancestor of the target, and the two are incomparable. */
  lemma Undisturbed(current: Commit, target: Commit, attempts: nat)
    requires attempts > 0
    ensures Race(current, [], target, attempts) ==
              if IsAncestor(target, current) then Advanced(AdvanceIncluded, current)
              else if IsAncestor(current, target) then Advanced(AdvanceUpdated, target)
              else Advanced(AdvanceStale, current)
  {
  }

  // ---- three lost races ----

  function Chain(n: nat): Commit {
    if n == 0 then Commit(0, []) else Commit(n, [Chain(n - 1)])
  }

  lemma {:induction false} ChainAncestor(a: nat, b: nat)
    ensures IsAncestor(Chain(a), Chain(b)) <==> a <= b
    decreases b
  {
    if a < b {
      ChainAncestor(a, b - 1);
      assert IsAncestor(Chain(a), Chain(b).parents[0]);
    } else if b < a {
      assert Chain(a).tree != Chain(b).tree;
      if b > 0 {
        ChainAncestor(a, b - 1);
      }
    }
  }

  /** One lost race: another writer moved the ref between the look at it and the write. */
  lemma RaceLost(current: Commit, schedule: seq<Commit>, target: Commit, attempts: nat)
    requires |schedule| >= 2 && schedule[0] == current && schedule[1] != current && attempts > 0
    requires IsAncestor(current, schedule[1]) && IsAncestor(current, target) && !IsAncestor(target, current)
    ensures Race(current, schedule, target, attempts) == Race(schedule[1], schedule[2..], target, attempts - 1)
  {
    AncestorReflexive(current);
    hide IsAncestor;
    assert Rest(Rest(schedule)) == schedule[2..];
  }

  lemma ThreeRacesLost(a: Commit, b: Commit, c: Commit, d: Commit, target: Commit)
    requires a != b && IsAncestor(a, b) && IsAncestor(a, target) && !IsAncestor(target, a)
    requires b != c && IsAncestor(b, c) && IsAncestor(b, target) && !IsAncestor(target, b)
    requires c != d && IsAncestor(c, d) && IsAncestor(c, target) && !IsAncestor(target, c)
    requires !IsAncestor(target, d)
    ensures Race(a, [a, b, b, c, c, d], target, 3) == Advanced(AdvanceStale, d)
  {
    hide IsAncestor, Race;
    RaceLost(a, [a, b, b, c, c, d], target, 3);
    assert [a, b, b, c, c, d][2..] == [b, c, c, d];
    RaceLost(b, [b, c, c, d], target, 2);
    assert [b, c, c, d][2..] == [c, d];
    RaceLost(c, [c, d], target, 1);
    assert [c, d][2..] == [];
    GivesUp(d, target);
  }

  /** Stale does not mean incomparable: with one commit of another writer before each of the three
    compare-and-sets, an advance gives up although the target could still be fast-forwarded to. */
  lemma StaleAfterThreeRaces()
    ensures Race(Chain(0), [Chain(0), Chain(1), Chain(1), Chain(2), Chain(2), Chain(3)], Chain(4), 3)
            == Advanced(AdvanceStale, Chain(3))
    ensures IsAncestor(Chain(3), Chain(4))
  {
    hide IsAncestor, Race, Chain;
    ChainAncestor(0, 1);
    ChainAncestor(0, 4);
    ChainAncestor(4, 0);
    ChainAncestor(1, 2);
    ChainAncestor(1, 4);
    ChainAncestor(4, 1);
    ChainAncestor(2, 3);
    ChainAncestor(2, 4);
    ChainAncestor(4, 2);
    ChainAncestor(3, 4);
    ChainAncestor(4, 3);
    assert forall n: nat :: n < 3 ==> Chain(n) != Chain(n + 1) by {
      ChainAncestor(1, 0);
      ChainAncestor(2, 1);
      ChainAncestor(3, 2);
      AncestorReflexive(Chain(1));
      AncestorReflexive(Chain(2));
      AncestorReflexive(Chain(3));
    }
    ThreeRacesLost(Chain(0), Chain(1), Chain(2), Chain(3), Chain(4));
  }

  lemma GivesUp(current: Commit, target: Commit)
    requires !IsAncestor(target, current)
    ensures Race(current, [], target, 0) == Advanced(AdvanceStale, current)
  {
  }
}
