/** The commit graph. A commit is named by its position, and its parents come before it, which is all
    that content addressing guarantees about a commit and its ancestors. */
module Commits {

  datatype Commit = Commit(tree: nat, parents: seq<nat>)

  type Store = seq<Commit>

  ghost predicate WellFormed(store: Store) {
    forall i, k :: 0 <= i < |store| && 0 <= k < |store[i].parents| ==> store[i].parents[k] < i
  }

  /** `ancestor` is `descendant` or is reached from it through parents. */
  predicate Reaches(store: Store, ancestor: nat, descendant: nat)
    requires WellFormed(store)
    decreases descendant
  {
    descendant < |store|
    && (ancestor == descendant
        || exists k :: 0 <= k < |store[descendant].parents| && Reaches(store, ancestor, store[descendant].parents[k]))
  }

  /** Reached through first parents only. */
  ghost predicate ReachesByFirstParents(store: Store, ancestor: nat, descendant: nat)
    requires WellFormed(store)
    decreases descendant
  {
    descendant < |store|
    && (ancestor == descendant
        || (store[descendant].parents != [] && ReachesByFirstParents(store, ancestor, store[descendant].parents[0])))
  }

  lemma {:induction false} ReachesIsBelow(store: Store, ancestor: nat, descendant: nat)
    requires WellFormed(store) && Reaches(store, ancestor, descendant)
    ensures ancestor <= descendant < |store|
    decreases descendant
  {
    if ancestor != descendant {
      var k :| 0 <= k < |store[descendant].parents| && Reaches(store, ancestor, store[descendant].parents[k]);
      ReachesIsBelow(store, ancestor, store[descendant].parents[k]);
    }
  }

  lemma {:induction false} ReachesIsTransitive(store: Store, a: nat, b: nat, c: nat)
    requires WellFormed(store) && Reaches(store, a, b) && Reaches(store, b, c)
    ensures Reaches(store, a, c)
    decreases c
  {
    if b != c {
      var k :| 0 <= k < |store[c].parents| && Reaches(store, b, store[c].parents[k]);
      ReachesIsTransitive(store, a, b, store[c].parents[k]);
    }
  }

  lemma {:induction false} FirstParentsReach(store: Store, a: nat, b: nat)
    requires WellFormed(store) && ReachesByFirstParents(store, a, b)
    ensures Reaches(store, a, b)
    decreases b
  {
    if a != b {
      FirstParentsReach(store, a, store[b].parents[0]);
    }
  }

  /** New commits change nothing about the ancestry of old ones. */
  lemma {:induction false} ReachesIsStable(store: Store, more: Store, ancestor: nat, descendant: nat)
    requires WellFormed(store) && WellFormed(more) && store <= more && descendant < |store|
    ensures Reaches(store, ancestor, descendant) <==> Reaches(more, ancestor, descendant)
    decreases descendant
  {
    forall k | 0 <= k < |store[descendant].parents|
      ensures Reaches(store, ancestor, store[descendant].parents[k]) <==>
                Reaches(more, ancestor, store[descendant].parents[k])
    {
      ReachesIsStable(store, more, ancestor, store[descendant].parents[k]);
    }
    assert more[descendant] == store[descendant];
  }

  /** A repository holds every ancestor of every commit it holds. */
  ghost predicate ClosedUnderAncestry(store: Store, local: set<nat>) {
    && (forall commit :: commit in local ==> commit < |store|)
    && (forall commit, k :: commit in local && commit < |store| && 0 <= k < |store[commit].parents| ==>
        store[commit].parents[k] in local)
  }

  lemma {:induction false} AncestorsAreLocal(store: Store, local: set<nat>, ancestor: nat, descendant: nat)
    requires WellFormed(store) && ClosedUnderAncestry(store, local) && descendant in local
    requires Reaches(store, ancestor, descendant)
    ensures ancestor in local
    decreases descendant
  {
    if ancestor != descendant {
      var k :| 0 <= k < |store[descendant].parents| && Reaches(store, ancestor, store[descendant].parents[k]);
      AncestorsAreLocal(store, local, ancestor, store[descendant].parents[k]);
    }
  }

  /** What a merge commit reaches is itself, and what its parents reach. */
  lemma MergeReaches(store: Store, commit: nat, first: nat, second: nat, ancestor: nat)
    requires WellFormed(store) && commit < |store| && store[commit].parents == [first, second]
    ensures Reaches(store, ancestor, commit)
            <==> ancestor == commit || Reaches(store, ancestor, first) || Reaches(store, ancestor, second)
  {
    var parents := store[commit].parents;
    if ancestor == commit {
    } else if Reaches(store, ancestor, first) {
      assert Reaches(store, ancestor, parents[0]);
    } else if Reaches(store, ancestor, second) {
      assert Reaches(store, ancestor, parents[1]);
    }
  }

  function Ancestors(store: Store, commit: nat): set<nat>
    requires WellFormed(store)
  {
    set a: nat | a < |store| && Reaches(store, a, commit)
  }

  /** A commit together with its ancestors is a repository. */
  lemma AncestorsAreClosed(store: Store, commit: nat)
    requires WellFormed(store) && commit < |store|
    ensures ClosedUnderAncestry(store, Ancestors(store, commit)) && commit in Ancestors(store, commit)
  {
    forall a, k | a in Ancestors(store, commit) && 0 <= k < |store[a].parents|
      ensures store[a].parents[k] in Ancestors(store, commit)
    {
      var parent := store[a].parents[k];
      assert Reaches(store, parent, store[a].parents[k]);
      ReachesIsTransitive(store, parent, a, commit);
    }
  }
}
