/** Creating a project's control repository in seven phases (internal/gitrepo/initializer.go).

  The daemon may stop after any phase; calling Initialize again with the same intent goes on
  from what it finds. The files of one project are modelled: its partial repositories, one per
  operation, and its final one.
 */
module Initializer {
  import opened Commits
  import opened Model

  datatype Phase =
    | IntentCommitted | PartialPrepared | BareInitialized | ObjectsImported
    | CanonicalWritten | IntegrityVerified | Promoted

  /** The saved identity of a project: where it comes from and where it begins. */
  datatype Identity = Identity(source: nat, sourceRef: nat, initial: Commit, canonicalRef: nat)

  datatype Intent = Intent(operation: OperationId, identity: Identity)

  /** The ownership marker names the operation that made the repository. */
  datatype Marker = Marker(operation: OperationId, identity: Identity)

  datatype Repository = Repository(
    marker: Option<Marker>,
    bare: bool,
    objects: set<Commit>,
    initRef: Option<Commit>,
    canonical: Option<Commit>,
    headSet: bool)

  datatype InitResult =
    | Ready(canonical: Commit)
    | Refused
    | Halted(after: Phase)

  /** What every final repository is, from the moment its path exists. */
  predicate Complete(r: Repository, identity: Identity) {
    && r.marker.Some? && r.marker.value.identity == identity
    && r.bare && r.headSet
    && r.canonical.Some? && IsAncestor(identity.initial, r.canonical.value)
    && identity.initial in r.objects
  }

  /** A partial repository as some prefix of the phases left it. */
  predicate InProgress(r: Repository, intent: Intent) {
    && (r.marker.Some? ==> r.marker.value == Marker(intent.operation, intent.identity))
    && (r.marker.None? ==> r == Repository(None, false, {}, None, None, false))
    && (r.initRef.Some? ==> r.initRef.value == intent.identity.initial)
    && (r.canonical.Some? ==> r.canonical.value == intent.identity.initial && intent.identity.initial in r.objects)
    && (r.canonical.Some? || r.initRef.Some? || r.objects != {} ==> r.bare)
  }

  class ProjectFiles {
    var partials: map<OperationId, Repository>
    var final: Option<Repository>

    /** What no stop and no other operation of the project disturbs. */
    ghost predicate Valid(intent: Intent)
      reads this
    {
      && (intent.operation in partials ==> InProgress(partials[intent.operation], intent))
      && (final.Some? ==> Complete(final.value, intent.identity))
    }

    /** The files of the other operations are never touched. */
    twostate predicate SparesOthers(operation: OperationId)
      reads this
    {
      && (forall o :: o in old(partials) && o != operation ==> o in partials && partials[o] == old(partials)[o])
      && (old(final).Some? ==> final == old(final))
    }

    /** preparePartial: an unmarked directory is adopted only when it is empty. */
    method PreparePartial(intent: Intent) returns (ok: bool)
      modifies this`partials
      ensures SparesOthers(intent.operation)
      ensures ok ==> intent.operation in partials && partials[intent.operation].marker == Some(Marker(intent.operation, intent.identity))
      ensures old(Valid(intent)) ==> ok && InProgress(partials[intent.operation], intent)
    {
      if intent.operation !in partials {
        partials := partials[intent.operation := Repository(None, false, {}, None, None, false)];
      }
      var r := partials[intent.operation];
      if r.marker.None? {
        if r.bare || r.objects != {} || r.initRef.Some? || r.canonical.Some? || r.headSet {
          return false;
        }
        partials := partials[intent.operation := r.(marker := Some(Marker(intent.operation, intent.identity)))];
        return true;
      }
      return r.marker.value == Marker(intent.operation, intent.identity);
    }

    /** ensureInitialObject; `reachable` says whether the source still has the saved commit. */
    method EnsureInitialObject(intent: Intent, reachable: bool) returns (ok: bool)
      requires intent.operation in partials
      modifies this`partials
      ensures SparesOthers(intent.operation) && intent.operation in partials
      ensures var was := old(partials)[intent.operation]; var r := partials[intent.operation];
              && r.marker == was.marker && r.bare == was.bare && r.canonical == was.canonical && r.headSet == was.headSet
              && was.objects <= r.objects
              && (ok ==> intent.identity.initial in r.objects && r.initRef == Some(intent.identity.initial))
              && (was.initRef.Some? ==> r.initRef == was.initRef)
              && (r.initRef.Some? && was.initRef.None? ==> r.initRef.value == intent.identity.initial)
              && (ok <==> (reachable || intent.identity.initial in was.objects)
                          && (was.initRef.None? || was.initRef.value == intent.identity.initial))
              && (r.objects != was.objects ==> reachable)
    {
      var r := partials[intent.operation];
      var initial := intent.identity.initial;
      if initial !in r.objects {
        if !reachable {
          return false;
        }
        r := r.(objects := r.objects + {initial});
        partials := partials[intent.operation := r];
      }
      if r.initRef.Some? {
        return r.initRef.value == initial;
      }
      partials := partials[intent.operation := r.(initRef := Some(initial))];
      return true;
    }

    /** ensureCanonical: created only when absent. */
    method EnsureCanonical(intent: Intent) returns (ok: bool)
      requires intent.operation in partials
      modifies this`partials
      ensures SparesOthers(intent.operation) && intent.operation in partials
      ensures var was := old(partials)[intent.operation]; var r := partials[intent.operation];
              && (ok <==> was.canonical.None? || was.canonical.value == intent.identity.initial)
              && r == if ok then was.(canonical := Some(intent.identity.initial), headSet := true, initRef := None) else was
    {
      var r := partials[intent.operation];
      if r.canonical.Some? && r.canonical.value != intent.identity.initial {
        return false;
      }
      if r.canonical.None? {
        r := r.(canonical := Some(intent.identity.initial));
      }
      r := r.(headSet := true);
      if r.initRef.Some? {
        r := r.(initRef := None);
      }
      partials := partials[intent.operation := r];
      return true;
    }

    /** verifyInitialized: reads, and writes nothing. */
    method VerifyInitialized(identity: Identity) returns (result: InitResult)
      requires final.Some?
      ensures !result.Halted?
      ensures result.Ready? <==>
                && final.value.marker.Some? && final.value.marker.value.identity == identity && final.value.bare
                && final.value.canonical.Some? && identity.initial in final.value.objects
                && IsAncestor(identity.initial, final.value.canonical.value)
      ensures result.Ready? ==> result.canonical == final.value.canonical.value
    {
      var r := final.value;
      if r.marker.None? || r.marker.value.identity != identity || !r.bare || r.canonical.None? {
        return Refused;
      }
      if identity.initial !in r.objects || !IsAncestor(identity.initial, r.canonical.value) {
        return Refused;
      }
      return Ready(r.canonical.value);
    }

    /** The phases before promotion, on the partial repository. */
    method BuildPartial(intent: Intent, reachable: bool, stop: Option<Phase>) returns (result: InitResult)
      requires final.None?
      modifies this`partials
      ensures SparesOthers(intent.operation)
      ensures old(Valid(intent)) ==> Valid(intent)
      ensures result.Halted? ==> stop == Some(result.after)
      ensures result.Ready? ==> intent.operation in partials && Complete(partials[intent.operation], intent.identity)
                                && partials[intent.operation].canonical == Some(intent.identity.initial)
      ensures old(Valid(intent)) && result.Refused? ==> !reachable
    {
      AncestorReflexive(intent.identity.initial);
      hide IsAncestor;
      var ok := PreparePartial(intent);
      if !ok {
        return Refused;
      }
      if stop == Some(PartialPrepared) {
        return Halted(PartialPrepared);
      }
      if !partials[intent.operation].bare {
        partials := partials[intent.operation := partials[intent.operation].(bare := true)];
      }
      if stop == Some(BareInitialized) {
        return Halted(BareInitialized);
      }
      ok := EnsureInitialObject(intent, reachable);
      if !ok {
        return Refused;
      }
      if stop == Some(ObjectsImported) {
        return Halted(ObjectsImported);
      }
      ok := EnsureCanonical(intent);
      if !ok {
        return Refused;
      }
      if stop == Some(CanonicalWritten) {
        return Halted(CanonicalWritten);
      }
      if stop == Some(IntegrityVerified) {
        return Halted(IntegrityVerified);
      }
      return Ready(intent.identity.initial);
    }

    /** Initialize */
    method Initialize(intent: Intent, reachable: bool, stop: Option<Phase>) returns (result: InitResult)
      modifies this`partials, this`final
      ensures SparesOthers(intent.operation)
      ensures old(Valid(intent)) ==> Valid(intent)
      ensures final.Some? && old(final).None? ==> Complete(final.value, intent.identity)
                                                  && final.value.canonical == Some(intent.identity.initial)
      ensures result.Ready? ==> final.Some? && final.value.canonical == Some(result.canonical)
                                && IsAncestor(intent.identity.initial, result.canonical)
      ensures result.Halted? ==> stop == Some(result.after)
      ensures old(Valid(intent)) && (reachable || old(final).Some?) ==> !result.Refused?
      ensures old(final).Some? && old(Valid(intent)) && result.Ready? ==> result.canonical == old(final).value.canonical.value
    {
      if stop == Some(IntentCommitted) {
        return Halted(IntentCommitted);
      }
      if final.Some? {
        result := VerifyInitialized(intent.identity);
        return;
      }
      result := BuildPartial(intent, reachable, stop);
      if !result.Ready? {
        return;
      }
      final := Some(partials[intent.operation]);
      partials := partials - {intent.operation};
      if stop == Some(Promoted) {
        return Halted(Promoted);
      }
      result := VerifyInitialized(intent.identity);
    }

    /** Between two calls the canonical ref of a promoted repository may be fast-forwarded. */
    method OthersAdvance(to: Commit)
      modifies this`final
      ensures old(final).None? ==> final.None?
      ensures old(final).Some? && old(final).value.canonical.Some? ==>
                final.Some? && final.value == old(final).value.(canonical := final.value.canonical) && final.value.canonical.Some?
                && IsAncestor(old(final).value.canonical.value, final.value.canonical.value)
      ensures old(final).Some? && old(final).value.canonical.None? ==> final == old(final)
    {
      if final.Some? && final.value.canonical.Some? {
        AncestorReflexive(final.value.canonical.value);
        if IsAncestor(final.value.canonical.value, to) {
          final := Some(final.value.(canonical := Some(to)));
        }
      }
    }

    /** A promoted repository that already was there keeps its canonical commits: what is canonical
      now contains what was canonical before. */
    ghost predicate Contains(before: Option<Repository>)
      reads this
    {
      before.Some? && before.value.canonical.Some? ==>
        final.Some? && final.value.canonical.Some? && IsAncestor(before.value.canonical.value, final.value.canonical.value)
    }

    lemma StillContains(before: Option<Repository>, middle: Option<Repository>)
      requires before.Some? && before.value.canonical.Some? ==>
                 middle.Some? && middle.value.canonical.Some?
                 && IsAncestor(before.value.canonical.value, middle.value.canonical.value)
      requires Contains(middle)
      ensures Contains(before)
    {
      if before.Some? && before.value.canonical.Some? {
        AncestorTransitive(before.value.canonical.value, middle.value.canonical.value, final.value.canonical.value);
      }
    }

    /** However often and wherever the daemon stops, the next undisturbed call reaches the promoted
      repository; and once that exists, no call resets a canonical ref that has moved on. */
    method InitializeAfterStops(intent: Intent, stops: seq<Phase>, moves: seq<Commit>) returns (result: InitResult)
      requires Valid(intent) && |moves| == |stops|
      modifies this`partials, this`final
      ensures Valid(intent) && result.Ready? && final.Some? && final.value.canonical == Some(result.canonical)
      ensures IsAncestor(intent.identity.initial, result.canonical)
      ensures Contains(old(final))
    {
      Unmoved(final);
      for i := 0 to |stops|
        invariant Valid(intent) && Contains(old(final))
      {
        ghost var start := final;
        StopAndMove(intent, stops[i], moves[i]);
        StillContains(old(final), start);
      }
      ghost var start := final;
      result := Initialize(intent, true, None);
      Unmoved(start);
      StillContains(old(final), start);
    }

    lemma Unmoved(before: Option<Repository>)
      requires before.None? || final == before
      ensures Contains(before)
    {
      if before.Some? && before.value.canonical.Some? {
        AncestorReflexive(before.value.canonical.value);
      }
    }

    /** One interrupted call, and one chance for another writer after it. */
    method StopAndMove(intent: Intent, stop: Phase, to: Commit)
      requires Valid(intent)
      modifies this`partials, this`final
      ensures Valid(intent) && Contains(old(final))
    {
      var _ := Initialize(intent, true, Some(stop));
      ghost var promoted := final;
      OthersAdvance(to);
      if promoted.Some? {
        AncestorTransitive(intent.identity.initial, promoted.value.canonical.value, final.value.canonical.value);
      }
    }
  }
}
