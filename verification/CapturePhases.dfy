/** Freezing a run's result behind an immutable task ref (Capture and importCapture in
  internal/gitrepo/result.go).

  The daemon may stop at any phase point; a stop leaves the refs as they are, without the
  deferred clean-up. Between the two lock sections of Capture another capture of the same or of
  another run may finish.
 */
module CapturePhases {
  import opened Commits
  import opened Model
  import opened GitSteps

  // ---- the name of the ref ----

  predicate SafeStart(c: char) {
    'A' <= c <= 'Z' || 'a' <= c <= 'z' || '0' <= c <= '9'
  }

  /** safeIDPattern in internal/gitrepo/support.go */
  predicate ValidID(id: string) {
    && 1 <= |id| <= 128 && SafeStart(id[0])
    && forall i :: 0 <= i < |id| ==> SafeStart(id[i]) || id[i] == '.' || id[i] == '_' || id[i] == '-'
  }

  /** TaskRef */
  function TaskRefName(task: string, run: string): Option<string> {
    if ValidID(task) && ValidID(run) then Some("refs/coordplane/tasks/" + task + "/runs/" + run) else None
  }

  lemma SameSplit(a: string, x: string, b: string, y: string)
    requires '/' !in a && '/' !in b && a + ['/'] + x == b + ['/'] + y
    ensures a == b && x == y
  {
    var s, t := a + ['/'] + x, b + ['/'] + y;
    assert s[|a|] == '/' && t[|b|] == '/';
    assert forall i :: 0 <= i < |a| ==> s[i] == a[i] && s[i] != '/';
    assert forall i :: 0 <= i < |b| ==> t[i] == b[i] && t[i] != '/';
    assert |a| == |b|;
    assert s[..|a|] == a && t[..|b|] == b;
    assert s[|a| + 1..] == x && t[|b| + 1..] == y;
  }

  /** No two runs share a ref: the name determines the task and the run. */
  lemma TaskRefNamesDiffer(task: string, run: string, task1: string, run1: string)
    requires TaskRefName(task, run).Some? && TaskRefName(task, run) == TaskRefName(task1, run1)
    ensures task == task1 && run == run1
  {
    var prefix := "refs/coordplane/tasks/";
    var name := TaskRefName(task, run).value;
    assert prefix + task + "/runs/" + run == prefix + (task + ['/'] + ("runs/" + run));
    assert prefix + task1 + "/runs/" + run1 == prefix + (task1 + ['/'] + ("runs/" + run1));
    assert name[|prefix|..] == task + ['/'] + ("runs/" + run);
    assert name[|prefix|..] == task1 + ['/'] + ("runs/" + run1);
    SameSplit(task, "runs/" + run, task1, "runs/" + run1);
    assert ("runs/" + run)[5..] == run && ("runs/" + run1)[5..] == run1;
  }

  // ---- capture ----

  datatype CapturePhase =
    | IntentChecked | HandoffReady | BundleVerified | ObjectsImported | IntegrityChecked | TaskRefWritten

  /** What the caller wants frozen, and what the workspace must contain. */
  datatype CaptureSpec = CaptureSpec(ref: TaskRef, origin: Origin, expected: Commit)

  datatype CaptureResult =
    | Captured(head: Commit, ref: TaskRef)
    | Invariant
    | Rejected
    | Stopped(at: CapturePhase)

  class ControlRefs {
    var taskRefs: map<TaskRef, Commit>
    var importRefs: map<TaskRef, Commit>

    /** No task ref that existed before points elsewhere now. */
    twostate predicate NeverRepointed()
      reads this
    {
      forall r :: r in old(taskRefs) ==> r in taskRefs && taskRefs[r] == old(taskRefs)[r]
    }

    /** Another capture, of whatever run, in the gap between the two lock sections. */
    method OtherCapture(other: Option<CaptureSpec>)
      modifies this`taskRefs
      ensures NeverRepointed()
      ensures forall r :: r in taskRefs && r !in old(taskRefs) ==> other.Some? && r == other.value.ref && taskRefs[r] == other.value.expected
    {
      if other.Some? && other.value.ref !in taskRefs {
        taskRefs := taskRefs[other.value.ref := other.value.expected];
      }
    }

    /** The path of both lock sections for a ref that exists already. */
    method AdoptExisting(spec: CaptureSpec) returns (result: CaptureResult)
      requires spec.ref in taskRefs
      modifies this`importRefs
      ensures result == (if taskRefs[spec.ref] != spec.expected then Invariant
                         else if !CapturedAncestry(spec.origin, spec.expected) then Rejected
                         else if spec.ref in old(importRefs) && old(importRefs)[spec.ref] != spec.expected then Invariant
                         else Captured(spec.expected, spec.ref))
      ensures importRefs == if result.Captured? then old(importRefs) - {spec.ref} else old(importRefs)
    {
      if taskRefs[spec.ref] != spec.expected {
        return Invariant;
      }
      if !CapturedAncestry(spec.origin, spec.expected) {
        return Rejected;
      }
      if spec.ref in importRefs {
        if importRefs[spec.ref] != spec.expected {
          return Invariant;
        }
        importRefs := importRefs - {spec.ref};
      }
      return Captured(spec.expected, spec.ref);
    }

    /** Nothing in the repository contradicts the capture of this spec. */
    ghost predicate Consistent(spec: CaptureSpec)
      reads this
    {
      && (spec.ref in taskRefs ==> taskRefs[spec.ref] == spec.expected)
      && (spec.ref in importRefs ==> importRefs[spec.ref] == spec.expected)
    }

    /** What a finished capture leaves. */
    ghost predicate Frozen(spec: CaptureSpec, result: CaptureResult)
      reads this
    {
      && result == Captured(spec.expected, spec.ref)
      && spec.ref in taskRefs && taskRefs[spec.ref] == spec.expected
      && CapturedAncestry(spec.origin, spec.expected) && spec.ref !in importRefs
    }

    /** importCapture, from a bundle whose HEAD is `bundle`. */
    method ImportCapture(spec: CaptureSpec, bundle: Commit, stop: Option<CapturePhase>) returns (result: CaptureResult)
      modifies this`taskRefs, this`importRefs
      ensures NeverRepointed()
      ensures result.Captured? ==> Frozen(spec, result)
      ensures forall r :: r in taskRefs && r !in old(taskRefs) ==> r == spec.ref && taskRefs[r] == spec.expected
      ensures old(Consistent(spec)) && bundle == spec.expected ==> Consistent(spec)
      ensures old(Consistent(spec)) && bundle == spec.expected && CapturedAncestry(spec.origin, spec.expected) ==>
                result.Captured? || (stop.Some? && result == Stopped(stop.value))
    {
      if spec.ref in taskRefs {
        result := AdoptExisting(spec);
        return;
      }
      if stop == Some(BundleVerified) {
        return Stopped(BundleVerified);
      }
      importRefs := importRefs[spec.ref := bundle];
      if bundle != spec.expected {
        return Invariant;
      }
      if stop == Some(ObjectsImported) {
        return Stopped(ObjectsImported);
      }
      if !CapturedAncestry(spec.origin, bundle) {
        importRefs := importRefs - {spec.ref};
        return Rejected;
      }
      if stop == Some(IntegrityChecked) {
        return Stopped(IntegrityChecked);
      }
      taskRefs := taskRefs[spec.ref := bundle];
      if stop == Some(TaskRefWritten) {
        return Stopped(TaskRefWritten);
      }
      importRefs := importRefs - {spec.ref};
      return Captured(bundle, spec.ref);
    }

    /** Capture. `handoff` is the head the helper reports, `bundle` the one its file holds. */
    method Capture(
      spec: CaptureSpec, handoff: Commit, bundle: Commit, other: Option<CaptureSpec>, stop: Option<CapturePhase>
    ) returns (result: CaptureResult)
      modifies this`taskRefs, this`importRefs
      ensures NeverRepointed()
      ensures result.Captured? ==> Frozen(spec, result)
      ensures forall r :: r in taskRefs && r !in old(taskRefs) ==>
                (r == spec.ref && taskRefs[r] == spec.expected)
                || (other.Some? && r == other.value.ref && taskRefs[r] == other.value.expected)
      ensures old(Consistent(spec)) && handoff == bundle == spec.expected && Agrees(other, spec) ==> Consistent(spec)
      ensures old(Consistent(spec)) && handoff == bundle == spec.expected && Agrees(other, spec)
              && CapturedAncestry(spec.origin, spec.expected) ==>
                result.Captured? || (stop.Some? && result == Stopped(stop.value))
    {
      if stop == Some(IntentChecked) {
        return Stopped(IntentChecked);
      }
      if spec.ref in taskRefs {
        result := AdoptExisting(spec);
        return;
      }
      if handoff != spec.expected {
        return Invariant;
      }
      if stop == Some(HandoffReady) {
        return Stopped(HandoffReady);
      }
      OtherCapture(other);
      result := ImportCapture(spec, bundle, stop);
    }

    /** A capture that stops again and again, wherever it stops, and then runs through, returns the
      one fact and leaves the one ref, as if it had never stopped. */
    method CaptureAfterStops(
      spec: CaptureSpec, stops: seq<CapturePhase>, others: seq<Option<CaptureSpec>>
    ) returns (result: CaptureResult)
      requires Consistent(spec) && CapturedAncestry(spec.origin, spec.expected)
      requires |others| == |stops| && forall i :: 0 <= i < |others| ==> Agrees(others[i], spec)
      modifies this`taskRefs, this`importRefs
      ensures NeverRepointed() && Frozen(spec, result)
    {
      for i := 0 to |stops|
        invariant Consistent(spec) && NeverRepointed()
      {
        result := Capture(spec, spec.expected, spec.expected, others[i], Some(stops[i]));
      }
      result := Capture(spec, spec.expected, spec.expected, None, None);
    }
  }

  /** Two captures of one ref freeze the same head: a run has one expected head. */
  predicate Agrees(other: Option<CaptureSpec>, spec: CaptureSpec) {
    other.Some? && other.value.ref == spec.ref ==> other.value.expected == spec.expected
  }
}
