/** Git history as content-addressed values.

  A commit ID is taken to be injective, so a commit *is* its tree together with its
  parents, and the ancestry that `git merge-base --is-ancestor` reports is a property
  of the two commits alone: it does not depend on which refs exist at the moment.
 */
module Commits {

  datatype Commit = Commit(tree: nat, parents: seq<Commit>)

  /** `git merge-base --is-ancestor ancestor descendant`. */
  predicate IsAncestor(ancestor: Commit, descendant: Commit)
    decreases descendant
  {
    ancestor == descendant
    || exists i :: 0 <= i < |descendant.parents| && IsAncestor(ancestor, descendant.parents[i])
  }

  lemma AncestorReflexive(a: Commit)
    ensures IsAncestor(a, a)
  {
  }

  lemma {:induction false} AncestorTransitive(a: Commit, b: Commit, c: Commit)
    requires IsAncestor(a, b) && IsAncestor(b, c)
    ensures IsAncestor(a, c)
    decreases c
  {
    if b != c {
      var i :| 0 <= i < |c.parents| && IsAncestor(b, c.parents[i]);
      AncestorTransitive(a, b, c.parents[i]);
    }
  }

  lemma {:induction false} ProperAncestorIsSmaller(a: Commit, d: Commit)
    requires IsAncestor(a, d) && a != d
    ensures a < d
    decreases d
  {
    var i :| 0 <= i < |d.parents| && IsAncestor(a, d.parents[i]);
    if a != d.parents[i] {
      ProperAncestorIsSmaller(a, d.parents[i]);
    }
  }

  /** History has no cycles: two commits that contain each other are one commit. */
  lemma AncestorAntisymmetric(a: Commit, b: Commit)
    requires IsAncestor(a, b) && IsAncestor(b, a)
    ensures a == b
  {
    if a != b {
      ProperAncestorIsSmaller(a, b);
      ProperAncestorIsSmaller(b, a);
    }
  }
}
