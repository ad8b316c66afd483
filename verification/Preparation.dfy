/** Reaching one head that may be gated: merging an advanced target into the source branch and pushing
    it, as often as the target moves but at most four times. */
module Preparation {

  import opened Outcomes
  import opened Commits
  import opened Forge
  import opened Publication

  const MAX_PREFLIGHTS: nat := 5

  // ---------------------------------------------------------------- instants

  /** At moment `i` both refs held these values. */
  ghost predicate BothAt(state: State, i: nat, base: string, target: nat, branch: string, head: nat) {
    && i < |state.moments|
    && base in state.moments[i].refs && state.moments[i].refs[base] == target
    && branch in state.moments[i].refs && state.moments[i].refs[branch] == head
  }

  /** Since the mark, both refs held these values at one moment, and the forge named this target for the request. */
  ghost predicate BothSince(state: State, since: Mark, base: string, target: nat, branch: string, head: nat) {
    exists i, k :: since.moment <= i && since.heard <= k && Names(state, k, base, branch, head)
        && BothAt(state, i, base, target, branch, head)
  }

  ghost predicate BranchAt(state: State, i: nat, branch: string, head: nat) {
    i < |state.moments| && branch in state.moments[i].refs && state.moments[i].refs[branch] == head
  }

  ghost predicate BranchSince(state: State, from: nat, branch: string, head: nat) {
    exists i :: from <= i && BranchAt(state, i, branch, head)
  }

  ghost predicate AbsentAt(state: State, i: nat, name: string) {
    i < |state.moments| && name !in state.moments[i].refs
  }

  ghost predicate AbsentSince(state: State, from: nat, name: string) {
    exists i :: from <= i && AbsentAt(state, i, name)
  }

  /** Since the mark, the target that the forge named for the request was absent at some moment. */
  ghost predicate TargetAbsentSince(state: State, since: Mark, branch: string, head: nat) {
    exists i, k, base ::
        since.moment <= i && since.heard <= k && Names(state, k, base, branch, head) && AbsentAt(state, i, base)
  }

  lemma BothIsStable(before: State, after: State, since: Mark, base: string, target: nat, branch: string, head: nat)
    requires Evolves(before, after) && BothSince(before, since, base, target, branch, head)
    ensures BothSince(after, since, base, target, branch, head)
  {
    var i, k :| since.moment <= i && since.heard <= k && Names(before, k, base, branch, head)
        && BothAt(before, i, base, target, branch, head);
    assert Names(after, k, base, branch, head) && BothAt(after, i, base, target, branch, head);
  }

  lemma AbsentTarget(before: State, after: State, since: Mark, from: nat, base: string, target: nat, branch: string,
                     head: nat)
    requires Evolves(before, after) && BothSince(before, since, base, target, branch, head)
    requires since.moment <= from && AbsentSince(after, from, base)
    ensures TargetAbsentSince(after, since, branch, head)
  {
    var i, k :| since.moment <= i && since.heard <= k && Names(before, k, base, branch, head)
        && BothAt(before, i, base, target, branch, head);
    var j :| from <= j && AbsentAt(after, j, base);
    assert Names(after, k, base, branch, head) && AbsentAt(after, j, base);
  }

  // ---------------------------------------------------------------- synchronization

  /** A merge of the target into the head, in that order. */
  ghost predicate MergeOf(state: State, merge: nat, head: nat, target: nat) {
    merge in state.local && merge < |state.store| && state.store[merge].parents == [head, target]
  }

  ghost predicate ReachesNone(state: State, avoided: seq<nat>, commit: nat)
    requires Inv(state)
  {
    forall k :: 0 <= k < |avoided| ==> !Reaches(state.store, avoided[k], commit)
  }

  lemma ReachesNoneIsStable(before: State, after: State, avoided: seq<nat>, commit: nat)
    requires Inv(before) && Inv(after) && Evolves(before, after) && commit < |before.store|
    ensures ReachesNone(before, avoided, commit) <==> ReachesNone(after, avoided, commit)
  {
    forall k | 0 <= k < |avoided|
      ensures Reaches(before.store, avoided[k], commit) <==> Reaches(after.store, avoided[k], commit)
    {
      ReachesIsStable(before.store, after.store, avoided[k], commit);
    }
  }

  /** The last thing done to the checkout was a merge: nothing has put the old head back. */
  predicate Stands(acts: seq<Act>) {
    acts != [] && var last := acts[|acts| - 1]; last.Pushing? || (last.Merging? && last.made.Some?)
  }

  /** At most the reset to `head` was done since. */
  ghost predicate AtMostResets(before: State, after: State, head: nat) {
    && Evolves(before, after) && after.mine == before.mine
    && (after.acts == before.acts || after.acts == before.acts + [Resetting(head)])
  }

  /** Where a completed merge leaves the checkout: at the merge while that stands, and otherwise at the old head. */
  ghost predicate Undone(state: State, branch: string, head: nat, merge: nat) {
    state.branch == Some(branch) && state.head == if Stands(state.acts) then merge else head
  }

  /** `_restore_completed_merge`: put the old head back, unless the checkout is no longer the merge. */
  method RestoreCompletedMerge(world: World, branch: string, head: nat, merge: nat) returns (restored: Step<()>)
    requires Inv(world.state) && head in world.state.local && Stands(world.state.acts)
    requires world.quiet ==> world.state.branch == Some(branch)
    modifies world
    ensures Inv(world.state) && AtMostResets(old(world.state), world.state, head)
    ensures world.state.heard == old(world.state).heard
    ensures world.quiet && old(world.state).head == merge ==> Undone(world.state, branch, head, merge)
    ensures restored.Good? ==> !Stands(world.state.acts) && (world.quiet ==> CheckoutAt(world.state, branch, head))
    // It refuses, and leaves, a checkout that is no longer the clean merge.
    ensures world.quiet && !(old(world.state).head == merge && old(world.state).clean) ==>
              restored.Refused? && world.state.acts == old(world.state).acts
              && SameCheckout(old(world.state), world.state)
    ensures world.quiet && world.reliable && old(world.state).head == merge && old(world.state).clean ==>
              !Stands(world.state.acts) && (restored.Good? <==> world.state.clean)
    ensures restored == Good(()) || restored == Refused(MERGE_ERROR)
  {
    var _ :- world.Command();
    var current := world.state.head;
    var _ :- world.Command();
    if current != merge || !world.state.clean {
      return Refused(MERGE_ERROR);
    }
    var _ :- world.Reset(head);
    var _ :- world.Command();
    if !world.state.clean {
      return Refused(MERGE_ERROR);
    }
    return Good(());
  }

  /** Another checkout is status 76 before anything is asked. Of one answer, another than an open and ready request
      of this branch in the same repository is status 77, and one at another head 76. */
  ghost predicate OpenRequestSays(before: State, after: State, quiet: bool, reliable: bool, branch: string, head: nat,
                                  base: Step<string>)
  {
    var n := |before.heard|;
    if |after.heard| == n then
      || (base == Refused(HEAD_CHANGED) && (quiet ==> !CheckoutAt(before, branch, head)))
      || (base == Refused(MERGE_ERROR) && !reliable)
    else
      && |after.heard| == n + 1 && after.heard[n].Told?
      && match after.heard[n].answer
         case Record(pr) =>
           base == if pr.merged || pr.draft || !pr.sameRepository || pr.branch != branch then Refused(NOT_READY)
                   else if pr.head != head then Refused(HEAD_CHANGED)
                   else Good(pr.base)
         case other => base.Refused? && Understood(other, Refused(base.status))
  }

  ghost predicate OpenRequestOf(pr: PullRequest, branch: string, head: nat) {
    !pr.merged && !pr.draft && pr.sameRepository && pr.branch == branch && pr.head == head
  }

  /** Besides the answer, one look at both refs of the target it names: both must be there, and the branch at the
      head. */
  ghost predicate RefsSay(before: State, after: State, quiet: bool, reliable: bool, branch: string, head: nat,
                          found: Step<(string, nat)>)
  {
    var n := |before.heard|;
    if |after.heard| <= n + 1 then
      found.Refused? && OpenRequestSays(before, after, quiet, reliable, branch, head, Refused(found.status))
    else
      && |after.heard| == n + 2 && after.heard[n].Told? && after.heard[n].answer.Record? && after.heard[n + 1].Saw?
      && var pr, look := after.heard[n].answer.pr, after.heard[n + 1];
         && OpenRequestOf(pr, branch, head) && look.base == pr.base && look.branch == branch
         && if !look.observed.Good? then
              found.Refused? && look.observed.Refused? && found.status == look.observed.status
            else
              found == if look.observed.value.branch == Some(head) then Good((pr.base, look.observed.value.target))
                       else Refused(HEAD_CHANGED)
  }

  /** The checkout and the metadata before anything changes; the answer is the last thing heard. */
  method ReadOpenRequest(world: World, branch: string, head: nat) returns (base: Step<string>)
    requires Inv(world.state)
    modifies world
    ensures Inv(world.state) && Reads(old(world.state), world.state)
    ensures world.quiet ==> SameCheckout(old(world.state), world.state)
    ensures base.Good? ==> head in world.state.local && |world.state.heard| > |old(world.state).heard|
    ensures base.Good? ==> Names(world.state, |world.state.heard| - 1, base.value, branch, head)
    ensures base.Good? && world.quiet ==> CheckoutAt(world.state, branch, head)
    ensures OpenRequestSays(old(world.state), world.state, world.quiet, world.reliable, branch, head, base)
  {
    var _ :- world.Command();
    var currentBranch := world.state.branch;
    var _ :- world.Command();
    var currentHead := world.state.head;
    var _ :- world.Command();
    if currentBranch != Some(branch) || currentHead != head || !world.state.clean {
      return Refused(HEAD_CHANGED);
    }
    var pr :- world.ReadMetadata();
    if pr.merged || pr.draft || !pr.sameRepository || pr.branch != branch {
      return Refused(NOT_READY);
    }
    if pr.head != head {
      return Refused(HEAD_CHANGED);
    }
    return Good(pr.base);
  }

  /** The checks before anything changes. */
  method BeforeMerge(world: World, branch: string, head: nat) returns (found: Step<(string, nat)>)
    requires Inv(world.state)
    modifies world
    ensures Inv(world.state) && Reads(old(world.state), world.state)
    ensures world.quiet ==> SameCheckout(old(world.state), world.state)
    ensures found.Good? ==> head in world.state.local && found.value.1 < |world.state.store|
    ensures found.Good? ==> BothSince(world.state, Here(old(world.state)), found.value.0, found.value.1, branch, head)
    ensures found.Good? && world.quiet ==> CheckoutAt(world.state, branch, head)
    ensures RefsSay(old(world.state), world.state, world.quiet, world.reliable, branch, head, found)
    ensures found.Refused? ==> found.status in {HEAD_CHANGED, NOT_READY, MERGE_ERROR}
    ensures !found.Stopped?
  {
    var base :- ReadOpenRequest(world, branch, head);
    ghost var k: nat := |world.state.heard| - 1;
    var refs :- world.RemoteRefs(base, branch, true);
    if refs.branch != Some(head) {
      return Refused(HEAD_CHANGED);
    }
    assert RefsExist(world.state.store, world.state.refs);
    assert Names(world.state, k, base, branch, head);
    assert BothAt(world.state, |world.state.moments| - 1, base, refs.target, branch, head);
    return Good((base, refs.target));
  }

  /** What the merge did: it was not run, it stopped, or it was made and perhaps undone again. */
  ghost predicate MergeShape(before: State, after: State, head: nat) {
    && Evolves(before, after) && after.mine == before.mine
    && |after.acts| <= |before.acts| + 2
    && (|after.acts| > |before.acts| ==> after.acts[|before.acts|].Merging?)
    && (|after.acts| > |before.acts| + 1 ==>
          after.acts[|before.acts| + 1] == if after.acts[|before.acts|].made.Some? then Resetting(head) else Aborting)
  }

  /** `git merge` and what follows it up to the first look at avoided commits. */
  method MergeTarget(world: World, branch: string, head: nat, target: nat) returns (merge: Step<nat>)
    requires Inv(world.state) && head in world.state.local && target in world.state.local
    requires !Reaches(world.state.store, target, head) && !Stands(world.state.acts)
    requires world.quiet ==> CheckoutAt(world.state, branch, head)
    modifies world
    ensures Inv(world.state) && MergeShape(old(world.state), world.state, head)
    ensures merge.Good? ==> |world.state.acts| == |old(world.state).acts| + 1 && Stands(world.state.acts)
    ensures merge.Good? ==> MergeOf(world.state, merge.value, head, target)
    ensures merge.Good? && world.quiet ==> CheckoutAt(world.state, branch, merge.value)
    ensures merge.Refused? ==> merge.status == MERGE_ERROR && (world.quiet ==> AsBefore(world.state, branch, head))
    ensures world.state.heard == old(world.state).heard
    // Without failing commands a merge that is refused was undone, unless it left changes behind.
    ensures merge.Refused? && world.quiet && world.reliable ==>
              |world.state.acts| > |old(world.state).acts| && (Stands(world.state.acts) ==> !world.state.clean)
              && (world.state.acts[|old(world.state).acts|] == Merging(None) ==>
                  |world.state.acts| == |old(world.state).acts| + 2)
    ensures world.state.acts == old(world.state).acts && world.quiet ==> SameCheckout(old(world.state), world.state)
    ensures world.state.acts == old(world.state).acts ==> !world.reliable
    ensures !merge.Stopped?
  {
    var merged := world.Merge(target);
    if !merged.Good? {
      return merged.PropagateFailure();
    }
    if merged.value {
      merge := InspectMerge(world, branch, head, target, world.state.head);
    } else {
      AbandonMerge(world);
      merge := Refused(MERGE_ERROR);
    }
  }

  /** The checkout is on its branch, and at the old head exactly when no merge stands. */
  ghost predicate AsBefore(state: State, branch: string, head: nat) {
    state.branch == Some(branch) && (state.head == head <==> !Stands(state.acts))
  }

  /** Undo a merge that stopped. The status is the same whether or not that works. */
  method AbandonMerge(world: World)
    requires Inv(world.state)
    modifies world
    ensures Inv(world.state) && Evolves(old(world.state), world.state) && world.state.mine == old(world.state).mine
            && world.state.heard == old(world.state).heard
    ensures world.state.acts == old(world.state).acts + [Aborting]
            || (world.state.acts == old(world.state).acts && !world.reliable)
    ensures world.quiet ==> world.state.branch == old(world.state).branch && world.state.head == old(world.state).head
  {
    var listed := world.Command();
    if listed.Good? {
      var aborted := world.AbortMerge();
      if aborted.Good? {
        var _ := world.Command();
      }
    }
  }

  /** Accept only one clean merge commit with exactly these parents, and otherwise undo it. */
  method InspectMerge(world: World, branch: string, head: nat, target: nat, ghost expected: nat)
    returns (merge: Step<nat>)
    requires Inv(world.state) && head in world.state.local
    requires world.state.acts != [] && world.state.acts[|world.state.acts| - 1] == Merging(Some(expected))
    requires world.quiet ==> world.state.branch == Some(branch) && world.state.head == expected && expected != head
    modifies world
    ensures Inv(world.state) && AtMostResets(old(world.state), world.state, head)
    ensures merge.Good? ==> world.state.acts == old(world.state).acts
    ensures merge.Good? ==> MergeOf(world.state, merge.value, head, target)
    ensures merge.Good? && world.quiet ==> CheckoutAt(world.state, branch, merge.value)
    ensures merge.Refused? ==> merge.status == MERGE_ERROR && (world.quiet ==> AsBefore(world.state, branch, head))
    ensures world.state.heard == old(world.state).heard
    ensures merge.Refused? && world.quiet && world.reliable ==>
              && !(old(world.state).clean && world.state.store[expected].parents == [head, target])
              && (if old(world.state).clean then !Stands(world.state.acts)
                  else Stands(world.state.acts) && !world.state.clean)
    ensures !merge.Stopped?
  {
    var _ :- world.Command();
    var made := world.state.head;
    var _ :- world.Command();
    var parents := world.state.store[made].parents;
    var _ :- world.Command();
    if parents != [head, target] || !world.state.clean {
      var _ :- RestoreCompletedMerge(world, branch, head, made);
      return Refused(MERGE_ERROR);
    }
    return Good(made);
  }

  /** What holds of a refused step after the merge: no ref was moved beyond `since`, and the checkout is at the
      old head exactly when no merge stands; only status 79 leaves open whether it is clean. */
  ghost predicate RefusedAfterMerge(state: State, quiet: bool, branch: string, head: nat, merge: nat, status: nat) {
    quiet ==> Undone(state, branch, head, merge) && (status != MERGE_ERROR && !Stands(state.acts) ==> state.clean)
  }

  /** Refuse a merge that would bring back an avoided commit. */
  method CheckAvoided(world: World, branch: string, head: nat, merge: nat, avoided: seq<nat>)
    returns (checked: Step<()>)
    requires Inv(world.state) && head in world.state.local && merge in world.state.local && Stands(world.state.acts)
    requires world.quiet ==> CheckoutAt(world.state, branch, merge)
    modifies world
    ensures Inv(world.state) && AtMostResets(old(world.state), world.state, head)
    ensures checked.Good? ==> ReachesNone(world.state, avoided, merge) && world.state.acts == old(world.state).acts
    ensures checked.Good? && world.quiet ==> CheckoutAt(world.state, branch, merge)
    ensures checked == Refused(AVOIDED) ==> !ReachesNone(world.state, avoided, merge) && !Stands(world.state.acts)
    ensures checked.Refused? ==> RefusedAfterMerge(world.state, world.quiet, branch, head, merge, checked.status)
    ensures checked.Refused? ==> checked.status == AVOIDED || checked.status == MERGE_ERROR
    ensures checked.Refused? && world.quiet && world.reliable ==>
              !ReachesNone(world.state, avoided, merge) && (checked == Refused(AVOIDED) <==> world.state.clean)
    ensures world.state.heard == old(world.state).heard
    ensures !checked.Stopped?
  {
    for i := 0 to |avoided|
      invariant Inv(world.state) && Silent(old(world.state), world.state)
      invariant world.quiet ==> CheckoutAt(world.state, branch, merge)
      invariant ReachesNone(world.state, avoided[..i], merge)
    {
      ghost var before := world.state;
      var reached :- world.IsAncestorLocally(avoided[i], merge);
      if reached {
        checked := RefuseAvoided(world, branch, head, merge, avoided, i);
        return;
      }
      ReachesNoneIsStable(before, world.state, avoided[..i], merge);
      assert avoided[..i + 1] == avoided[..i] + [avoided[i]];
    }
    assert avoided[..|avoided|] == avoided;
    return Good(());
  }

  /** The merge reaches the `i`th avoided commit. */
  method RefuseAvoided(world: World, branch: string, head: nat, merge: nat, ghost avoided: seq<nat>, ghost i: nat)
    returns (refused: Step<()>)
    requires Inv(world.state) && head in world.state.local && merge in world.state.local && Stands(world.state.acts)
    requires i < |avoided| && Reaches(world.state.store, avoided[i], merge)
    requires world.quiet ==> CheckoutAt(world.state, branch, merge)
    modifies world
    ensures Inv(world.state) && AtMostResets(old(world.state), world.state, head)
    ensures refused == Refused(AVOIDED) ==> !Stands(world.state.acts)
    ensures refused.Refused? && RefusedAfterMerge(world.state, world.quiet, branch, head, merge, refused.status)
    ensures refused.status == AVOIDED || refused.status == MERGE_ERROR
    ensures !ReachesNone(world.state, avoided, merge)
    ensures world.quiet && world.reliable ==> (refused == Refused(AVOIDED) <==> world.state.clean)
    ensures world.state.heard == old(world.state).heard
  {
    var restored := RestoreCompletedMerge(world, branch, head, merge);
    ReachesIsStable(old(world.state).store, world.state.store, avoided[i], merge);
    refused := Refused(if restored.Good? then AVOIDED else MERGE_ERROR);
  }

  /** The last thing heard is a look at the refs that was refused with this status. */
  ghost predicate LookRefused(heard: seq<Heard>, status: nat) {
    heard != [] && var last := heard[|heard| - 1]; last.Saw? && last.observed == Refused(status)
  }

  /** When a merge that was made stands after a refusal. Status 77 leaves it, and 76 leaves it exactly when the last
      thing heard is a look refused so; in both cases that ref was absent. Status 79 may leave it, and no other does. */
  ghost predicate StandsExactly(state: State, from: nat, base: string, branch: string, status: nat) {
    if status == NOT_READY then
      Stands(state.acts) && AbsentSince(state, from, base)
    else if status == HEAD_CHANGED then
      && (Stands(state.acts) <==> LookRefused(state.heard, HEAD_CHANGED))
      && (Stands(state.acts) ==> AbsentSince(state, from, branch))
    else
      status != MERGE_ERROR ==> !Stands(state.acts)
  }

  ghost function Refusal<T>(step: Step<T>): Option<nat> {
    if step.Refused? then Some(step.status) else None
  }

  /** The look between the merge and the push: a missing ref is refused with its status. Otherwise both refs must hold
      what was merged, and a moved branch is status 76 before a moved target is 75, or 79 if the merge stays. */
  ghost predicate LookBefore(look: Heard, base: string, target: nat, branch: string, head: nat, refusal: Option<nat>) {
    && look.Saw? && look.base == base && look.branch == branch
    && match look.observed
       case Stopped => false
       case Refused(status) => refusal == Some(status)
       case Good(seen) =>
         if seen.branch != Some(head) then refusal == Some(HEAD_CHANGED) || refusal == Some(MERGE_ERROR)
         else if seen.target != target then refusal == Some(STALE_MAIN) || refusal == Some(MERGE_ERROR)
         else refusal.None?
  }

  /** The look after a push without a reply: the branch is at the merge or the push is refused, with status 78 when it
      is still at the old head and 76 when it is elsewhere, or 79 if the merge stays. */
  ghost predicate LookAfter(look: Heard, base: string, branch: string, head: nat, merge: nat, refusal: Option<nat>) {
    && look.Saw? && look.base == base && look.branch == branch
    && match look.observed
       case Stopped => false
       case Refused(status) => refusal == Some(status)
       case Good(seen) =>
         if seen.branch == Some(merge) then refusal.None?
         else if seen.branch == Some(head) then refusal == Some(PUBLISH_FAILED) || refusal == Some(MERGE_ERROR)
         else refusal == Some(HEAD_CHANGED) || refusal == Some(MERGE_ERROR)
  }

  /** A merge is not restored only by failing commands or by changes that it left behind. */
  ghost predicate ErrorExplained(world: World, refusal: Option<nat>)
    reads world
  {
    refusal == Some(MERGE_ERROR) && world.quiet && world.reliable ==> !world.state.clean
  }

  /** From these points of what was done and heard on: a push whose reply arrived is all that counts, and otherwise one
      look decides. */
  ghost predicate PushSays(state: State, a: nat, h: nat, reliable: bool, base: string, branch: string, head: nat,
                           merge: nat, refusal: Option<nat>)
    requires a <= |state.acts| && h <= |state.heard|
  {
    if |state.acts| == a then
      refusal == Some(MERGE_ERROR) && !reliable && |state.heard| == h
    else
      && state.acts[a].Pushing?
      && if state.acts[a].replied then refusal.None? && |state.heard| == h
         else |state.heard| == h + 1 && LookAfter(state.heard[h], base, branch, head, merge, refusal)
  }

  /** From this point of what was heard on: a merge without a look reaches an avoided commit or could not be checked,
      and otherwise the look decides. */
  ghost predicate CheckSays(state: State, h: nat, base: string, target: nat, branch: string, head: nat,
                            refusal: Option<nat>)
    requires h <= |state.heard|
  {
    if |state.heard| == h then refusal == Some(AVOIDED) || refusal == Some(MERGE_ERROR)
    else |state.heard| == h + 1 && LookBefore(state.heard[h], base, target, branch, head, refusal)
  }

  /** Both refs must still hold what was merged. */
  method BeforePush(world: World, base: string, target: nat, branch: string, head: nat, merge: nat)
    returns (checked: Step<()>)
    requires Inv(world.state) && head in world.state.local && Stands(world.state.acts)
    requires world.quiet ==> CheckoutAt(world.state, branch, merge)
    modifies world
    ensures Inv(world.state) && AtMostResets(old(world.state), world.state, head)
    ensures checked.Good? ==> world.state.acts == old(world.state).acts
    ensures checked.Good? && world.quiet ==> CheckoutAt(world.state, branch, merge)
    ensures checked.Refused? ==> checked.status in {STALE_MAIN, HEAD_CHANGED, NOT_READY, MERGE_ERROR}
    ensures checked.Refused? ==> RefusedAfterMerge(world.state, world.quiet, branch, head, merge, checked.status)
    ensures checked.Refused? ==>
              StandsExactly(world.state, |old(world.state).moments| - 1, base, branch, checked.status)
    ensures |world.state.heard| == |old(world.state).heard| + 1
            && CheckSays(world.state, |old(world.state).heard|, base, target, branch, head, Refusal(checked))
    ensures ErrorExplained(world, Refusal(checked))
    ensures !checked.Stopped?
  {
    var refs := world.RemoteRefs(base, branch, true);
    if !refs.Good? {
      assert refs.status == NOT_READY ==> AbsentAt(world.state, |world.state.moments| - 1, base);
      assert refs.status == HEAD_CHANGED ==> AbsentAt(world.state, |world.state.moments| - 1, branch);
      return refs.PropagateFailure();
    }
    if refs.value.branch != Some(head) {
      var _ :- RestoreCompletedMerge(world, branch, head, merge);
      return Refused(HEAD_CHANGED);
    }
    if refs.value.target != target {
      var _ :- RestoreCompletedMerge(world, branch, head, merge);
      return Refused(STALE_MAIN);
    }
    return Good(());
  }

  predicate MergePushed(act: Act, branch: string, head: nat, merge: nat, applied: Option<nat>) {
    act.Pushing? && act == Pushing(branch, head, merge, act.replied, applied)
  }

  /** One push, which may have taken effect, and then at most the reset. */
  ghost predicate PushShape(before: State, after: State, branch: string, head: nat, merge: nat, applied: Option<nat>) {
    && Evolves(before, after) && after.mine == before.mine + Moments(applied)
    && |after.acts| <= |before.acts| + 2
    && (applied.Some? ==> |after.acts| > |before.acts| && after.acts[|before.acts|].Pushing?)
    && (|after.acts| > |before.acts| ==> MergePushed(after.acts[|before.acts|], branch, head, merge, applied))
    && (|after.acts| > |before.acts| + 1 ==> after.acts[|before.acts| + 1] == Resetting(head))
  }

  /** The push took effect at this moment, replacing `head` by the merge. */
  ghost predicate PushedAt(state: State, from: nat, i: nat, branch: string, head: nat, merge: nat) {
    && from < i < |state.moments| && state.moments[i].cause == Pushed(branch, head)
    && branch in state.moments[i].refs && state.moments[i].refs[branch] == merge
  }

  /** This change of the remote was a synchronization of `branch` that replaced `head`. */
  ghost predicate OwnPush(state: State, from: nat, i: nat, branch: string, head: nat) {
    from < i < |state.moments| && state.moments[i].cause == Pushed(branch, head)
  }

  /** Push the merge with a lease on the replaced head; an error is decided by one re-read. */
  method PushMerge(world: World, base: string, branch: string, head: nat, merge: nat)
    returns (pushed: Step<()>, ghost applied: Option<nat>)
    requires Inv(world.state) && head in world.state.local && merge in world.state.local && merge != head
              && Stands(world.state.acts)
    requires |world.state.store[merge].parents| == 2 && world.state.store[merge].parents[0] == head
    requires world.quiet ==> CheckoutAt(world.state, branch, merge)
    modifies world
    ensures Inv(world.state) && PushShape(old(world.state), world.state, branch, head, merge, applied)
    ensures applied.Some? ==> PushedAt(world.state, |old(world.state).moments| - 1, applied.value, branch, head, merge)
    ensures pushed.Good? ==> BranchSince(world.state, |old(world.state).moments| - 1, branch, merge)
    ensures pushed.Good? ==> |world.state.acts| == |old(world.state).acts| + 1
    ensures PushSays(world.state, |old(world.state).acts|, |old(world.state).heard|, world.reliable, base, branch, head,
                     merge, Refusal(pushed))
    ensures ErrorExplained(world, Refusal(pushed))
    ensures pushed.Good? && world.quiet ==> CheckoutAt(world.state, branch, merge)
    ensures pushed.Refused? ==> pushed.status in {HEAD_CHANGED, NOT_READY, PUBLISH_FAILED, MERGE_ERROR}
    ensures pushed.Refused? ==> RefusedAfterMerge(world.state, world.quiet, branch, head, merge, pushed.status)
    ensures pushed.Refused? ==>
              StandsExactly(world.state, |old(world.state).moments| - 1, base, branch, pushed.status)
    ensures pushed == Refused(PUBLISH_FAILED) ==> BranchSince(world.state, |old(world.state).moments| - 1, branch, head)
    ensures !pushed.Stopped?
  {
    var replied: Step<bool>;
    replied, applied := world.Push(branch, head, merge);
    if !replied.Good? {
      return replied.PropagateFailure(), applied;
    }
    if replied.value {
      assert BranchAt(world.state, applied.value, branch, merge);
      return Good(()), applied;
    }
    pushed := AfterPush(world, base, branch, head, merge);
  }

  /** The one look that follows a push without a reply. */
  method AfterPush(world: World, base: string, branch: string, head: nat, merge: nat) returns (pushed: Step<()>)
    requires Inv(world.state) && head in world.state.local && merge != head && Stands(world.state.acts)
    requires world.quiet ==> CheckoutAt(world.state, branch, merge)
    modifies world
    ensures Inv(world.state) && AtMostResets(old(world.state), world.state, head)
    ensures pushed.Good? ==> BranchSince(world.state, |old(world.state).moments| - 1, branch, merge)
    ensures pushed.Good? ==> world.state.acts == old(world.state).acts
    ensures pushed.Good? && world.quiet ==> CheckoutAt(world.state, branch, merge)
    ensures pushed.Refused? ==> pushed.status in {HEAD_CHANGED, NOT_READY, PUBLISH_FAILED, MERGE_ERROR}
    ensures pushed.Refused? ==> RefusedAfterMerge(world.state, world.quiet, branch, head, merge, pushed.status)
    ensures pushed.Refused? ==>
              StandsExactly(world.state, |old(world.state).moments| - 1, base, branch, pushed.status)
    ensures pushed == Refused(PUBLISH_FAILED) ==> BranchSince(world.state, |old(world.state).moments| - 1, branch, head)
    ensures |world.state.heard| == |old(world.state).heard| + 1
            && LookAfter(world.state.heard[|old(world.state).heard|], base, branch, head, merge, Refusal(pushed))
    ensures ErrorExplained(world, Refusal(pushed))
    ensures !pushed.Stopped?
  {
    var after := world.RemoteRefs(base, branch, false);
    if !after.Good? {
      assert after.status == NOT_READY ==> AbsentAt(world.state, |world.state.moments| - 1, base);
      return after.PropagateFailure();
    }
    ghost var seen := world.state;
    if after.value.branch == Some(merge) {
      assert BranchAt(world.state, |world.state.moments| - 1, branch, merge);
      return Good(());
    }
    var _ :- RestoreCompletedMerge(world, branch, head, merge);
    if after.value.branch != Some(head) {
      return Refused(HEAD_CHANGED);
    }
    assert BranchAt(world.state, |seen.moments| - 1, branch, head);
    return Refused(PUBLISH_FAILED);
  }

  /** What a successful synchronization promises about the head it returns: the target that the forge named is
      in it, or it is a pushed merge of that target, and reaches no avoided commit. */
  ghost predicate Synchronized(state: State, since: Mark, branch: string, head: nat, result: nat, avoided: seq<nat>)
    requires Inv(state)
  {
    if result == head then
      ReadySince(state, since, branch, head)
    else
      && BranchSince(state, since.moment, branch, result)
      && ReachesNone(state, avoided, result)
      && exists base, target ::
         BothSince(state, since, base, target, branch, head) && MergeOf(state, result, head, target)
  }

  lemma IncludedIsReady(seen: State, now: State, since: Mark, base: string, target: nat, branch: string, head: nat)
    requires Inv(seen) && Inv(now) && Evolves(seen, now) && BothSince(seen, since, base, target, branch, head)
              && Reaches(now.store, target, head)
    ensures ReadySince(now, since, branch, head)
  {
    var i, k :| since.moment <= i && since.heard <= k && Names(seen, k, base, branch, head)
        && BothAt(seen, i, base, target, branch, head);
    assert Names(now, k, base, branch, head) && ReadyAt(now, i, base, branch, head);
  }

  lemma SynchronizationConcludes(start: State, checked: State, now: State, since: Mark, base: string, target: nat,
                                 branch: string,
                                 head: nat, merge: nat, avoided: seq<nat>)
    requires Inv(checked) && Inv(now) && Evolves(start, now) && Evolves(checked, now)
    requires BothSince(start, since, base, target, branch, head)
    requires MergeOf(checked, merge, head, target) && ReachesNone(checked, avoided, merge)
              && BranchSince(now, since.moment, branch, merge)
    ensures merge != head && Synchronized(now, since, branch, head, merge, avoided)
  {
    BothIsStable(start, now, since, base, target, branch, head);
    ReachesNoneIsStable(checked, now, avoided, merge);
    assert checked.store[merge].parents[0] == head;
    assert MergeOf(now, merge, head, target);
  }

  /** A refusal after a merge was tried: the checkout is at the old head exactly when no merge stands, and only
      status 79 leaves open whether it is clean. */
  ghost predicate RefusedTidily(state: State, quiet: bool, branch: string, head: nat, status: nat) {
    quiet ==> AsBefore(state, branch, head) && (status != MERGE_ERROR && !Stands(state.acts) ==> state.clean)
  }

  /** Some merge of the target into the head reaches an avoided commit. */
  ghost predicate AvoidedMerge(state: State, head: nat, target: nat, avoided: seq<nat>)
    requires Inv(state)
  {
    exists merge :: MergeOf(state, merge, head, target) && !ReachesNone(state, avoided, merge)
  }

  /** That target is the one that the look before the merge found. */
  ghost predicate AvoidedSince(before: State, after: State, head: nat, avoided: seq<nat>)
    requires Inv(after)
  {
    && |after.heard| > |before.heard| + 1
    && var look := after.heard[|before.heard| + 1];
       look.Saw? && look.observed.Good? && AvoidedMerge(after, head, look.observed.value.target, avoided)
  }

  /** The part of a synchronization that changes only the checkout. */
  method MakeMerge(world: World, base: string, target: nat, branch: string, head: nat, avoided: seq<nat>)
    returns (merge: Step<nat>)
    requires Inv(world.state) && head in world.state.local && target in world.state.local
    requires !Reaches(world.state.store, target, head) && !Stands(world.state.acts)
    requires world.quiet ==> CheckoutAt(world.state, branch, head)
    modifies world
    ensures Inv(world.state) && MergeShape(old(world.state), world.state, head)
    ensures merge.Good? ==> |world.state.acts| == |old(world.state).acts| + 1 && Stands(world.state.acts)
    ensures merge.Good? ==>
              MergeOf(world.state, merge.value, head, target) && ReachesNone(world.state, avoided, merge.value)
    ensures merge.Good? && world.quiet ==> CheckoutAt(world.state, branch, merge.value)
    ensures merge.Refused? ==> merge.status in {STALE_MAIN, HEAD_CHANGED, NOT_READY, MERGE_ERROR, AVOIDED}
    ensures merge.Refused? ==> RefusedTidily(world.state, world.quiet, branch, head, merge.status)
    ensures world.state.acts == old(world.state).acts && world.quiet ==> SameCheckout(old(world.state), world.state)
    ensures world.state.acts == old(world.state).acts ==> world.state.heard == old(world.state).heard && !world.reliable
    ensures merge.Refused? ==> StandsExactly(world.state, |old(world.state).moments| - 1, base, branch, merge.status)
    ensures old(world.state).heard <= world.state.heard
            && CheckSays(world.state, |old(world.state).heard|, base, target, branch, head, Refusal(merge))
    ensures merge == Refused(AVOIDED) ==> AvoidedMerge(world.state, head, target, avoided)
    ensures !merge.Stopped?
  {
    merge := MergeTarget(world, branch, head, target);
    if !merge.Good? {
      return;
    }
    assert world.state.store[merge.value].parents[0] == head;
    var checked := CheckMerge(world, base, target, branch, head, merge.value, avoided);
    if !checked.Good? {
      assert MergeOf(world.state, merge.value, head, target);
      merge := checked.PropagateFailure();
    }
  }

  /** The two checks between the merge and the push. */
  method CheckMerge(world: World, base: string, target: nat, branch: string, head: nat, merge: nat, avoided: seq<nat>)
    returns (checked: Step<()>)
    requires Inv(world.state) && head in world.state.local && merge in world.state.local && merge != head
              && Stands(world.state.acts)
    requires world.quiet ==> CheckoutAt(world.state, branch, merge)
    modifies world
    ensures Inv(world.state) && AtMostResets(old(world.state), world.state, head)
    ensures checked.Good? ==> world.state.acts == old(world.state).acts && ReachesNone(world.state, avoided, merge)
    ensures checked.Good? && world.quiet ==> CheckoutAt(world.state, branch, merge)
    ensures checked.Refused? ==> checked.status in {STALE_MAIN, HEAD_CHANGED, NOT_READY, MERGE_ERROR, AVOIDED}
    ensures checked.Refused? ==> RefusedTidily(world.state, world.quiet, branch, head, checked.status)
    ensures checked.Refused? ==>
              StandsExactly(world.state, |old(world.state).moments| - 1, base, branch, checked.status)
    ensures old(world.state).heard <= world.state.heard
            && CheckSays(world.state, |old(world.state).heard|, base, target, branch, head, Refusal(checked))
    ensures ErrorExplained(world, Refusal(checked))
    ensures checked == Refused(AVOIDED) ==> !ReachesNone(world.state, avoided, merge)
    ensures !checked.Stopped?
  {
    checked := CheckAvoided(world, branch, head, merge, avoided);
    if !checked.Good? {
      return;
    }
    ghost var before := world.state;
    checked := BeforePush(world, base, target, branch, head, merge);
    ReachesNoneIsStable(before, world.state, avoided, merge);
  }

  /** What one synchronization did: at most one merge, at most one push of it, and at most the reset. */
  ghost predicate SyncShape(before: State, after: State, branch: string, head: nat, applied: Option<nat>) {
    var n := |before.acts|;
    && Evolves(before, after) && after.mine == before.mine + Moments(applied)
    && n < |after.acts| <= n + 4 && after.acts[n] == Synchronizing(head)
    && (|after.acts| > n + 1 ==> after.acts[n + 1].Merging?)
    && (|after.acts| > n + 2 ==>
          if after.acts[n + 1].made.None? then after.acts[n + 2] == Aborting
          else after.acts[n + 2] == Resetting(head) || PushOf(after.acts[n + 2], branch, head, applied))
    && (|after.acts| > n + 3 ==>
        PushOf(after.acts[n + 2], branch, head, applied) && after.acts[n + 3] == Resetting(head))
    && (applied.Some? ==> |after.acts| > n + 2 && PushOf(after.acts[n + 2], branch, head, applied))
  }

  /** The last thing done was to push this merge on top of `head`. */
  predicate PushedLast(acts: seq<Act>, branch: string, head: nat, merge: nat) {
    acts != [] && var last := acts[|acts| - 1];
                  last.Pushing? && last.branch == branch && last.expected == head && last.merge == merge
  }

  predicate PushOf(act: Act, branch: string, head: nat, applied: Option<nat>) {
    act.Pushing? && act.branch == branch && act.expected == head && act.applied == applied
  }

  /** From these points of what was done and heard on: a push comes only after a look that found both refs as they were
      merged, and otherwise the check of the merge decides. */
  ghost predicate MergeSays(state: State, a: nat, h: nat, reliable: bool, base: string, target: nat, branch: string,
                            head: nat, refusal: Option<nat>)
    requires a <= |state.acts| && h <= |state.heard|
  {
    if |state.acts| > a + 1 && state.acts[a + 1].Pushing? then
      && |state.heard| > h && LookBefore(state.heard[h], base, target, branch, head, None)
      && PushSays(state, a + 1, h + 1, reliable, base, branch, head, state.acts[a + 1].merge, refusal)
    else
      CheckSays(state, h, base, target, branch, head, refusal)
        || (CheckSays(state, h, base, target, branch, head, None) && refusal == Some(MERGE_ERROR) && !reliable)
  }

  /** The part of a synchronization that changes something: the checkout, and then the remote branch. */
  method MergeAndPush(world: World, base: string, target: nat, branch: string, head: nat, avoided: seq<nat>,
                      ghost before: State)
    returns (result: Step<nat>, ghost applied: Option<nat>)
    requires Inv(world.state) && head in world.state.local && target in world.state.local
    requires !Reaches(world.state.store, target, head)
    requires world.quiet ==> CheckoutAt(world.state, branch, head)
    requires Inv(before) && Evolves(before, world.state) && world.state.mine == before.mine
    requires world.state.acts == before.acts + [Synchronizing(head)]
    requires BothSince(world.state, Here(before), base, target, branch, head)
    modifies world
    ensures Inv(world.state) && Evolves(old(world.state), world.state)
              && SyncShape(before, world.state, branch, head, applied)
    ensures applied.Some? ==> OwnPush(world.state, |old(world.state).moments| - 1, applied.value, branch, head)
    ensures result.Good? ==> result.value in world.state.local && result.value != head
    ensures result.Good? ==> Synchronized(world.state, Here(before), branch, head, result.value, avoided)
    ensures result.Good? ==>
              |world.state.acts| == |before.acts| + 3 && PushedLast(world.state.acts, branch, head, result.value)
    ensures result.Good? && world.quiet ==> CheckoutAt(world.state, branch, result.value)
    ensures result.Refused? ==>
              result.status in {STALE_MAIN, HEAD_CHANGED, NOT_READY, PUBLISH_FAILED, MERGE_ERROR, AVOIDED}
    ensures result.Refused? ==> RefusedTidily(world.state, world.quiet, branch, head, result.status)
    ensures world.state.acts == old(world.state).acts && world.quiet ==> SameCheckout(old(world.state), world.state)
    ensures world.state.acts == old(world.state).acts ==> world.state.heard == old(world.state).heard && !world.reliable
    ensures result.Refused? ==> StandsExactly(world.state, |old(world.state).moments| - 1, base, branch, result.status)
    ensures result.Refused? && result.status in {STALE_MAIN, AVOIDED} ==> applied.None?
    ensures MergeSays(world.state, |before.acts| + 1, |old(world.state).heard|, world.reliable, base, target, branch,
                      head, Refusal(result))
    ensures result == Refused(AVOIDED) ==> AvoidedMerge(world.state, head, target, avoided)
    ensures !result.Stopped?
  {
    ghost var start := world.state;
    var merge := MakeMerge(world, base, target, branch, head, avoided);
    MergeIsSync(before, start, world.state, branch, head);
    if !merge.Good? {
      return merge, None;
    }
    result, applied := PushMade(world, base, target, branch, head, merge.value, avoided, before, start);
  }

  lemma MergeIsSync(before: State, start: State, after: State, branch: string, head: nat)
    requires Evolves(before, start) && start.mine == before.mine && start.acts == before.acts + [Synchronizing(head)]
    requires MergeShape(start, after, head)
    ensures SyncShape(before, after, branch, head, None)
  {
  }

  lemma PushIsSync(before: State, merged: State, after: State, branch: string, head: nat, merge: nat,
                   applied: Option<nat>)
    requires SyncShape(before, merged, branch, head, None) && |merged.acts| == |before.acts| + 2 && Stands(merged.acts)
    requires PushShape(merged, after, branch, head, merge, applied)
    ensures SyncShape(before, after, branch, head, applied)
  {
  }

  /** The push of a merge that passed its checks. */
  method PushMade(world: World, base: string, target: nat, branch: string, head: nat, merge: nat,
                  ghost avoided: seq<nat>,
                  ghost before: State, ghost start: State)
    returns (result: Step<nat>, ghost applied: Option<nat>)
    requires Inv(world.state) && head in world.state.local
    requires MergeOf(world.state, merge, head, target) && ReachesNone(world.state, avoided, merge)
    requires SyncShape(before, world.state, branch, head, None) && |world.state.acts| == |before.acts| + 2
              && Stands(world.state.acts)
    requires world.quiet ==> CheckoutAt(world.state, branch, merge)
    requires Inv(before) && Evolves(start, world.state) && BothSince(start, Here(before), base, target, branch, head)
    modifies world
    ensures Inv(world.state) && Evolves(old(world.state), world.state)
              && SyncShape(before, world.state, branch, head, applied)
    ensures applied.Some? ==> OwnPush(world.state, |old(world.state).moments| - 1, applied.value, branch, head)
    ensures result.Good? ==> result.value in world.state.local && result.value != head
    ensures result.Good? ==> Synchronized(world.state, Here(before), branch, head, result.value, avoided)
    ensures result.Good? ==>
              |world.state.acts| == |before.acts| + 3 && PushedLast(world.state.acts, branch, head, result.value)
    ensures result.Good? && world.quiet ==> CheckoutAt(world.state, branch, result.value)
    ensures result.Refused? ==> result.status in {HEAD_CHANGED, NOT_READY, PUBLISH_FAILED, MERGE_ERROR}
    ensures result.Refused? ==> RefusedTidily(world.state, world.quiet, branch, head, result.status)
    ensures result.Refused? ==> StandsExactly(world.state, |old(world.state).moments| - 1, base, branch, result.status)
    ensures |world.state.acts| > |before.acts| + 2 ==>
              MergePushed(world.state.acts[|before.acts| + 2], branch, head, merge, applied)
    ensures PushSays(world.state, |before.acts| + 2, |old(world.state).heard|, world.reliable, base, branch, head,
                     merge,
                     Refusal(result))
    ensures !result.Stopped?
  {
    ghost var checked := world.state;
    assert checked.store[merge].parents[0] == head;
    var pushed: Step<()>;
    pushed, applied := PushMerge(world, base, branch, head, merge);
    PushIsSync(before, checked, world.state, branch, head, merge, applied);
    if !pushed.Good? {
      return pushed.PropagateFailure(), applied;
    }
    BranchEarlier(world.state, |before.moments| - 1, |checked.moments| - 1, branch, merge);
    SynchronizationConcludes(start, checked, world.state, Here(before), base, target, branch, head, merge, avoided);
    return Good(merge), applied;
  }

  lemma BranchEarlier(state: State, from: nat, later: nat, branch: string, head: nat)
    requires from <= later && BranchSince(state, later, branch, head)
    ensures BranchSince(state, from, branch, head)
  {
    var i :| later <= i && BranchAt(state, i, branch, head);
  }

  /** `_synchronize_target`. */
  method Synchronize(world: World, branch: string, head: nat, avoided: seq<nat>)
    returns (result: Step<nat>, ghost applied: Option<nat>)
    requires Inv(world.state)
    modifies world
    ensures Inv(world.state)
    // At most one push, of one merge on top of the head, and none when the target moved or an avoided commit came back.
    ensures SyncShape(old(world.state), world.state, branch, head, applied)
    ensures result.Refused? && result.status in {STALE_MAIN, AVOIDED} ==> applied.None?
    ensures result.Good? ==> result.value in world.state.local
    ensures result.Good? ==> Synchronized(world.state, Here(old(world.state)), branch, head, result.value, avoided)
    ensures applied.Some? ==> OwnPush(world.state, |old(world.state).moments| - 1, applied.value, branch, head)
    ensures result.Good? && world.quiet ==>
              CheckoutAt(old(world.state), branch, head) && CheckoutAt(world.state, branch, result.value)
    ensures result.Good? && result.value == head ==>
              world.state.acts == old(world.state).acts + [Synchronizing(head)]
                  && (world.quiet ==> SameCheckout(old(world.state), world.state))
    ensures result.Good? && result.value != head ==>
              |world.state.acts| == |old(world.state).acts| + 3
                  && PushedLast(world.state.acts, branch, head, result.value)
    ensures result.Refused? ==>
              result.status in {STALE_MAIN, HEAD_CHANGED, NOT_READY, PUBLISH_FAILED, MERGE_ERROR, AVOIDED}
    ensures !result.Stopped?
    ensures result == Refused(AVOIDED) ==> AvoidedSince(old(world.state), world.state, head, avoided)
    // What a refusal leaves of the checkout, and when a merge is left in it.
    ensures result.Refused? ==> LeavesCheckout(old(world.state), world.state, world.quiet, branch, head, result.status)
    // What was heard decides: each status belongs to what the answer and the looks said.
    ensures SynchronizationSays(old(world.state), world.state, world.quiet, world.reliable, branch, head, result)
  {
    applied := None;
    ghost var before := world.state;
    world.Note(Synchronizing(head));
    var found := FindTarget(world, branch, head, before);
    if found.Good? && found.value.Some? {
      var (base, target) := found.value.value;
      result, applied := MergeFound(world, base, target, branch, head, avoided, before);
    } else {
      FoundIsSaid(before, world.state, world.quiet, world.reliable, branch, head, found);
      result := if found.Good? then Good(head) else Refused(found.status);
    }
  }

  /** The rest of a synchronization, once the checks agreed on a target that the head does not have. */
  method MergeFound(world: World, base: string, target: nat, branch: string, head: nat, avoided: seq<nat>,
                    ghost before: State)
    returns (result: Step<nat>, ghost applied: Option<nat>)
    requires Inv(world.state) && head in world.state.local && target in world.state.local
    requires !Reaches(world.state.store, target, head)
    requires world.quiet ==> SameCheckout(before, world.state) && CheckoutAt(world.state, branch, head)
    requires Inv(before) && Evolves(before, world.state) && world.state.mine == before.mine
    requires world.state.acts == before.acts + [Synchronizing(head)]
    requires BothSince(world.state, Here(before), base, target, branch, head)
    requires Agreed(world.state.heard, |before.heard|, branch, head) && |world.state.heard| == |before.heard| + 2
    requires base == world.state.heard[|before.heard|].answer.pr.base
              && target == world.state.heard[|before.heard| + 1].observed.value.target
    modifies world
    ensures Inv(world.state) && SyncShape(before, world.state, branch, head, applied)
    ensures applied.Some? ==> OwnPush(world.state, |before.moments| - 1, applied.value, branch, head)
    ensures result.Good? ==> result.value in world.state.local && result.value != head
    ensures result.Good? ==> Synchronized(world.state, Here(before), branch, head, result.value, avoided)
    ensures result.Good? ==>
              |world.state.acts| == |before.acts| + 3 && PushedLast(world.state.acts, branch, head, result.value)
    ensures result.Good? && world.quiet ==> CheckoutAt(world.state, branch, result.value)
    ensures result.Refused? ==>
              result.status in {STALE_MAIN, HEAD_CHANGED, NOT_READY, PUBLISH_FAILED, MERGE_ERROR, AVOIDED}
    ensures result.Refused? ==> LeavesCheckout(before, world.state, world.quiet, branch, head, result.status)
    ensures result.Refused? && result.status in {STALE_MAIN, AVOIDED} ==> applied.None?
    ensures result == Refused(AVOIDED) ==> AvoidedSince(before, world.state, head, avoided)
    ensures SynchronizationSays(before, world.state, world.quiet, world.reliable, branch, head, result)
    ensures !result.Stopped?
  {
    ghost var ready := world.state;
    result, applied := MergeAndPush(world, base, target, branch, head, avoided, before);
    MergeIsSaid(before, ready, world.state, world.quiet, world.reliable, base, target, branch, head, result);
    if result.Refused? {
      RefusalLeaves(before, ready, world.state, world.quiet, base, target, branch, head, result.status);
    }
  }

  /** What the checks before the merge agreed on, from this point of what was heard on: one open request of this branch
      and head, and one look that finds the branch at that head. */
  ghost predicate Agreed(heard: seq<Heard>, h: nat, branch: string, head: nat) {
    && |heard| > h + 1 && heard[h].Told? && heard[h].answer.Record? && heard[h + 1].Saw?
    && var pr, look := heard[h].answer.pr, heard[h + 1];
       && OpenRequestOf(pr, branch, head) && look.base == pr.base && look.branch == branch
       && look.observed.Good? && look.observed.value.branch == Some(head)
  }

  /** Without a merge the checks before it decide, and with one they agreed and what followed decides. */
  ghost predicate SynchronizationSays(before: State, after: State, quiet: bool, reliable: bool, branch: string,
                                      head: nat, result: Step<nat>)
    requires Evolves(before, after) && |after.acts| > |before.acts|
  {
    var h := |before.heard|;
    if Agreed(after.heard, h, branch, head) then
      if |after.acts| == |before.acts| + 1 then
        |after.heard| == h + 2 && (result == Good(head) || !reliable)
      else
        MergeSays(after, |before.acts| + 1, h + 2, reliable, after.heard[h].answer.pr.base,
                  after.heard[h + 1].observed.value.target, branch, head, Refusal(result))
    else
      result.Refused? && RefsSay(before, after, quiet, reliable, branch, head, Refused(result.status))
  }

  /** What the checks before the merge find, as everything heard in them says. */
  ghost predicate FoundSays(before: State, after: State, quiet: bool, reliable: bool, branch: string, head: nat,
                            found: Step<Option<(string, nat)>>)
    requires before.heard <= after.heard
  {
    var h := |before.heard|;
    if Agreed(after.heard, h, branch, head) then
      && |after.heard| == h + 2 && (found.Good? || !reliable)
      && (found.Good? && found.value.Some? ==>
            found.value.value == (after.heard[h].answer.pr.base, after.heard[h + 1].observed.value.target))
    else
      found.Refused? && RefsSay(before, after, quiet, reliable, branch, head, Refused(found.status))
  }

  lemma FoundIsSaid(before: State, after: State, quiet: bool, reliable: bool, branch: string, head: nat,
                    found: Step<Option<(string, nat)>>)
    requires Evolves(before, after) && |after.acts| == |before.acts| + 1
    requires !found.Stopped? && (found.Good? ==> found.value.None?)
    requires FoundSays(before, after, quiet, reliable, branch, head, found)
    ensures SynchronizationSays(before, after, quiet, reliable, branch, head,
                                if found.Good? then Good(head) else Refused(found.status))
  {
  }

  lemma MergeIsSaid(before: State, ready: State, after: State, quiet: bool, reliable: bool, base: string, target: nat,
                    branch: string, head: nat, result: Step<nat>)
    requires Evolves(before, ready) && Evolves(ready, after) && !result.Stopped?
    requires ready.acts == before.acts + [Synchronizing(head)] && |ready.heard| == |before.heard| + 2
    requires Agreed(ready.heard, |before.heard|, branch, head)
    requires base == ready.heard[|before.heard|].answer.pr.base
              && target == ready.heard[|before.heard| + 1].observed.value.target
    requires MergeSays(after, |ready.acts|, |ready.heard|, reliable, base, target, branch, head, Refusal(result))
    requires |after.acts| == |ready.acts| ==> after.heard == ready.heard && !reliable
    ensures SynchronizationSays(before, after, quiet, reliable, branch, head, result)
  {
    var h := |before.heard|;
    assert after.heard[h] == ready.heard[h] && after.heard[h + 1] == ready.heard[h + 1];
    assert Agreed(after.heard, h, branch, head);
  }

  /** The checks, and the target to merge when the head does not have it yet. Nothing is done. */
  method FindTarget(world: World, branch: string, head: nat, ghost before: State)
    returns (found: Step<Option<(string, nat)>>)
    requires Inv(world.state) && Inv(before) && Evolves(before, world.state)
    requires Here(world.state) == Here(before) && SameCheckout(before, world.state)
    modifies world
    ensures Inv(world.state) && Reads(old(world.state), world.state)
    ensures world.quiet ==> SameCheckout(old(world.state), world.state)
    ensures found.Good? ==> head in world.state.local && (world.quiet ==> CheckoutAt(world.state, branch, head))
    ensures found.Good? && found.value.None? ==> ReadySince(world.state, Here(before), branch, head)
    ensures found.Good? && found.value.Some? ==>
              var (base, target) := found.value.value;
              && target in world.state.local && !Reaches(world.state.store, target, head)
              && BothSince(world.state, Here(before), base, target, branch, head)
    ensures found.Refused? ==> found.status in {STALE_MAIN, HEAD_CHANGED, NOT_READY, MERGE_ERROR}
    ensures !found.Stopped?
    ensures FoundSays(before, world.state, world.quiet, world.reliable, branch, head, found)
  {
    var both := BeforeMerge(world, branch, head);
    if both.Good? {
      found := CompareTarget(world, both.value.0, both.value.1, branch, head, before);
    } else {
      found := both.PropagateFailure();
    }
  }

  /** Whether the head has the target already; if not, the target is fetched. */
  method CompareTarget(world: World, base: string, target: nat, branch: string, head: nat, ghost before: State)
    returns (found: Step<Option<(string, nat)>>)
    requires Inv(world.state) && Inv(before) && Evolves(before, world.state)
    requires head in world.state.local && target < |world.state.store|
    requires world.quiet ==> CheckoutAt(world.state, branch, head)
    requires BothSince(world.state, Here(before), base, target, branch, head)
    requires Agreed(world.state.heard, |before.heard|, branch, head) && |world.state.heard| == |before.heard| + 2
    requires base == world.state.heard[|before.heard|].answer.pr.base
              && target == world.state.heard[|before.heard| + 1].observed.value.target
    modifies world
    ensures Inv(world.state) && Silent(old(world.state), world.state)
    ensures world.quiet ==> SameCheckout(old(world.state), world.state)
    ensures found.Good? && found.value.None? ==> ReadySince(world.state, Here(before), branch, head)
    ensures found.Good? && found.value.Some? ==>
              && target in world.state.local && !Reaches(world.state.store, target, head)
              && BothSince(world.state, Here(before), base, target, branch, head)
    ensures FoundSays(before, world.state, world.quiet, world.reliable, branch, head, found)
    ensures found.Good? && found.value.Some? ==> found.value.value == (base, target)
    ensures found.Refused? ==> found.status == STALE_MAIN || found.status == MERGE_ERROR
    ensures !found.Stopped?
  {
    ghost var seen := world.state;
    var included :- world.IsAncestorLocally(target, head);
    if included {
      IncludedIsReady(seen, world.state, Here(before), base, target, branch, head);
      return Good(None);
    }
    ghost var compared := world.state;
    var _ :- world.Fetch(target);
    ReachesIsStable(compared.store, world.state.store, target, head);
    BothIsStable(seen, world.state, Here(before), base, target, branch, head);
    return Good(Some((base, target)));
  }

  /** After a refusal the checkout is at the old head exactly when no merge stands, and but for status 79 it is
      then as it was. Once a merge was tried, status 77 leaves it, with the target that the forge named absent at an
      instant of the call; 76 leaves it exactly when the last look was refused so, with the branch absent; and but for
      79 no other status does. */
  ghost predicate LeavesCheckout(before: State, after: State, quiet: bool, branch: string, head: nat, status: nat)
    requires before.moments != []
  {
    && (quiet ==> LeftAs(before, after, status))
    && (|after.acts| == |before.acts| + 1 ==> !Stands(after.acts))
    && (|after.acts| > |before.acts| + 1 ==> MergeStands(before, after, branch, head, status))
  }

  ghost predicate MergeStands(before: State, after: State, branch: string, head: nat, status: nat)
    requires before.moments != []
  {
    if status == NOT_READY then
      Stands(after.acts) && TargetAbsentSince(after, Here(before), branch, head)
    else if status == HEAD_CHANGED then
      && (Stands(after.acts) <==> LookRefused(after.heard, HEAD_CHANGED))
      && (Stands(after.acts) ==> AbsentSince(after, |before.moments| - 1, branch))
    else
      status != MERGE_ERROR ==> !Stands(after.acts)
  }

  lemma RefusalLeaves(before: State, ready: State, after: State, quiet: bool, base: string, target: nat, branch: string,
                      head: nat,
                      status: nat)
    requires Inv(before) && Inv(ready) && Evolves(before, ready) && Evolves(ready, after)
    requires BothSince(ready, Here(before), base, target, branch, head)
    requires ready.acts == before.acts + [Synchronizing(head)] && |after.acts| > |before.acts|
    requires |after.acts| == |ready.acts| ==> after.acts == ready.acts
    requires quiet ==> SameCheckout(before, ready) && CheckoutAt(ready, branch, head)
    requires |after.acts| == |ready.acts| && quiet ==> SameCheckout(ready, after)
    requires RefusedTidily(after, quiet, branch, head, status)
    requires StandsExactly(after, |ready.moments| - 1, base, branch, status)
    ensures LeavesCheckout(before, after, quiet, branch, head, status)
  {
    if status == NOT_READY {
      AbsentTarget(ready, after, Here(before), |ready.moments| - 1, base, target, branch, head);
    }
  }

  /** The checkout after a refusal, compared with the one before. */
  ghost predicate LeftAs(before: State, after: State, status: nat) {
    && after.branch == before.branch
    && (after.head == before.head <==> !Stands(after.acts))
    && (status != MERGE_ERROR && !Stands(after.acts) ==> SameCheckout(before, after))
    && (|after.acts| == |before.acts| + 1 ==> SameCheckout(before, after))
  }

  /** A merge can stay behind: the request branch disappears after the merge, so the look before the push is
      refused, and nothing puts the old head back. */
  lemma MergeCanStay()
    ensures exists before, after ::
              && Inv(before) && Inv(after) && SyncShape(before, after, "topic", 1, None)
              && CheckoutAt(before, "topic", 1) && CheckoutAt(after, "topic", 3) && MergeOf(after, 3, 1, 2)
              && RefsSeen(after.refs, "main", "topic", true) == Refused(HEAD_CHANGED)
              && LeavesCheckout(before, after, true, "topic", 1, HEAD_CHANGED) && Stands(after.acts)
  {
    var before, after := MovedTarget(), MergeLeft();
    MergeLeftOk();
    assert MergeOf(after, 3, 1, 2);
    assert AbsentAt(after, 1, "topic");
  }

  /** An open request whose target has moved on. */
  ghost function MovedTarget(): State {
    var refs := map["main" := 2, "topic" := 1];
    State([Commit(0, []), Commit(1, [0]), Commit(2, [0])], refs, {0, 1, 2}, Some("topic"), 1, true,
          [Moment(refs, Start)], [], [], [])
  }

  /** The same request after the merge, when the branch is gone from the remote. */
  ghost function MergeLeft(): State {
    var before, refs := MovedTarget(), map["main" := 2];
    before.(store := before.store + [Commit(3, [1, 2])], refs := refs, local := before.local + {3}, head := 3,
            moments := before.moments + [Moment(refs, Elsewhere)],
            heard := [Told(Record(PullRequest(false, false, "main", "topic", 1, true, true))),
                      Saw(0, "main", "topic", Good(Observed(2, Some(1)))),
                      Saw(1, "main", "topic", Refused(HEAD_CHANGED))],
            acts := [Synchronizing(1), Merging(Some(3))])
  }

  lemma MovedTargetOk()
    ensures Inv(MovedTarget())
  {
    assert RefsExist(MovedTarget().store, MovedTarget().refs);
  }

  lemma MergeLeftOk()
    ensures Inv(MovedTarget()) && Inv(MergeLeft()) && "topic" !in MergeLeft().refs && "main" in MergeLeft().refs
  {
    var before, after := MovedTarget(), MergeLeft();
    MovedTargetOk();
    assert "main" != "topic" by { assert |"main"| != |"topic"|; }
    HistoryIsStable(before.store, after.store, before.moments);
    assert RefsExist(after.store, after.refs);
  }

  // ---------------------------------------------------------------- the record of a preparation

  /** One head replaced by the merge that was pushed on top of it. */
  datatype Change = Change(previous: nat, next: nat)

  /** What was done since some point: how many checks and synchronizations were begun, and which changes recorded. */
  datatype Ledger = Ledger(checks: nat, synchronizations: nat, changes: seq<Change>)

  function Entered(ledger: Ledger, act: Act): Ledger {
    match act
    case Checking(_, _, _) => ledger.(checks := ledger.checks + 1)
    case Synchronizing(_) => ledger.(synchronizations := ledger.synchronizations + 1)
    case Recorded(previous, next) => ledger.(changes := ledger.changes + [Change(previous, next)])
    case _ => ledger
  }

  function LedgerSince(acts: seq<Act>, from: nat): Ledger
    requires from <= |acts|
  {
    if |acts| == from then Ledger(0, 0, []) else Entered(LedgerSince(acts[..|acts| - 1], from), acts[|acts| - 1])
  }

  /** The head that a preparation has reached, and the one that it replaced last. */
  function HeadOf(submitted: nat, changes: seq<Change>): nat {
    if changes == [] then submitted else changes[|changes| - 1].next
  }

  function Replaced(changes: seq<Change>): Option<nat> {
    if changes == [] then None else Some(changes[|changes| - 1].previous)
  }

  /** A preparation only observes when it checks; it checks, merges, pushes onto, resets to and records exactly the
      head it has reached. */
  predicate Fits(act: Act, branch: string, submitted: nat, changes: seq<Change>) {
    var head := HeadOf(submitted, changes);
    match act
    case Checking(observeOnly, checked, replaced) => observeOnly && checked == head && replaced == Replaced(changes)
    case Synchronizing(synchronized) => synchronized == head
    case Merging(_) => true
    case Aborting => true
    case Pushing(pushed, expected, _, _, _) => pushed == branch && expected == head
    case Resetting(restored) => restored == head
    case Recorded(previous, _) => previous == head
    case _ => false
  }

  /** What may follow `previous` in a preparation: one synchronization after each check, in it at most one merge and
      at most one push of a merge that was made, and a record only right after the push of the recorded head. */
  predicate Continues(previous: Act, act: Act) {
    match act
    case Checking(observeOnly, _, _) => observeOnly && (previous.Synchronizing? || previous.Recorded?)
    case Synchronizing(head) => previous.Checking? && previous.observeOnly && previous.head == head
    case Merging(_) => previous.Synchronizing?
    case Aborting => previous == Merging(None)
    case Pushing(_, _, _, _, _) => previous.Merging? && previous.made.Some?
    case Resetting(_) => previous.Pushing? || (previous.Merging? && previous.made.Some?)
    case Recorded(replaced, next) => previous.Pushing? && previous.expected == replaced && previous.merge == next
    case _ => false
  }

  /** A preparation begins with a check. */
  predicate ComesNext(acts: seq<Act>, from: nat, act: Act)
    requires from <= |acts|
  {
    if |acts| == from then act.Checking? else Continues(acts[|acts| - 1], act)
  }

  ghost predicate AllFit(acts: seq<Act>, from: nat, branch: string, submitted: nat)
    requires from <= |acts|
  {
    |acts| > from ==>
      var earlier, last := acts[..|acts| - 1], acts[|acts| - 1];
      && AllFit(earlier, from, branch, submitted)
      && ComesNext(earlier, from, last) && Fits(last, branch, submitted, LedgerSince(earlier, from).changes)
  }

  function Pushes(acts: seq<Act>, from: nat): nat
    requires from <= |acts|
  {
    if |acts| == from then 0 else Pushes(acts[..|acts| - 1], from) + if acts[|acts| - 1].Pushing? then 1 else 0
  }

  /** A preparation pushes at most once for each synchronization that it began. */
  lemma {:induction false} PushesAreSynchronized(acts: seq<Act>, from: nat, branch: string, submitted: nat)
    requires from <= |acts| && AllFit(acts, from, branch, submitted)
    ensures Pushes(acts, from) <= LedgerSince(acts, from).synchronizations
    ensures |acts| > from && (acts[|acts| - 1].Synchronizing? || acts[|acts| - 1].Merging?) ==>
              Pushes(acts, from) < LedgerSince(acts, from).synchronizations
  {
    if |acts| > from {
      PushesAreSynchronized(acts[..|acts| - 1], from, branch, submitted);
    }
  }

  /** The moments that these acts say they moved a ref at. */
  function MovedSince(acts: seq<Act>, from: nat): seq<nat>
    requires from <= |acts|
  {
    if |acts| == from then [] else MovedSince(acts[..|acts| - 1], from) + MovedBy(acts[|acts| - 1])
  }

  function MovedBy(act: Act): seq<nat> {
    if act.Pushing? || act.Updating? then Moments(act.applied) else []
  }

  ghost predicate MayEnter(acts: seq<Act>, from: nat, branch: string, submitted: nat, act: Act)
    requires from <= |acts|
  {
    && AllFit(acts, from, branch, submitted)
    && ComesNext(acts, from, act) && Fits(act, branch, submitted, LedgerSince(acts, from).changes)
  }

  lemma ActEnters(acts: seq<Act>, from: nat, branch: string, submitted: nat, act: Act)
    requires from <= |acts|
    ensures LedgerSince(acts + [act], from) == Entered(LedgerSince(acts, from), act)
    ensures MovedSince(acts + [act], from) == MovedSince(acts, from) + MovedBy(act)
    ensures MayEnter(acts, from, branch, submitted, act) ==> AllFit(acts + [act], from, branch, submitted)
  {
    assert (acts + [act])[..|acts|] == acts;
  }

  /** Work on the checkout and the remote branch that a synchronization of `head` does. */
  predicate Works(act: Act, branch: string, head: nat) {
    act.Merging? || act.Aborting? || act == Resetting(head)
        || (act.Pushing? && act.branch == branch && act.expected == head)
  }

  /** Nothing that a synchronization does in between enters the ledger. */
  lemma {:induction false} WorkIsUnlisted(acts: seq<Act>, from: nat, upTo: nat, branch: string, submitted: nat)
    requires from < upTo <= |acts| && AllFit(acts[..upTo], from, branch, submitted)
    requires forall k :: upTo <= k < |acts| ==>
                           Works(acts[k], branch, HeadOf(submitted, LedgerSince(acts[..upTo], from).changes))
    requires forall k :: upTo <= k < |acts| ==> Continues(acts[k - 1], acts[k])
    ensures LedgerSince(acts, from) == LedgerSince(acts[..upTo], from)
    ensures AllFit(acts, from, branch, submitted)
  {
    if upTo == |acts| {
      assert acts[..upTo] == acts;
    } else {
      var earlier, last := acts[..|acts| - 1], acts[|acts| - 1];
      assert earlier[..upTo] == acts[..upTo];
      WorkIsUnlisted(earlier, from, upTo, branch, submitted);
      assert acts == earlier + [last];
      ActEnters(earlier, from, branch, submitted, last);
    }
  }

  /** Of the refs this caller moved only the request branch, by synchronizations. */
  ghost predicate OnlyPushes(start: State, now: State, branch: string) {
    forall j :: |start.mine| <= j < |now.mine| ==>
                  now.mine[j] < |now.moments| && now.moments[now.mine[j]].cause.Pushed?
                      && now.moments[now.mine[j]].cause.branch == branch
  }

  /** This caller moved refs exactly at the moments that its acts name. */
  ghost predicate Accounted(start: State, now: State)
    requires start.acts <= now.acts
  {
    now.mine == start.mine + MovedSince(now.acts, |start.acts|)
  }

  /** The acts since `start` are those of a preparation, and the ledger of them is this. */
  ghost predicate InOrder(start: State, now: State, branch: string, submitted: nat, ledger: Ledger) {
    && Evolves(start, now)
    && LedgerSince(now.acts, |start.acts|) == ledger && AllFit(now.acts, |start.acts|, branch, submitted)
    && OnlyPushes(start, now, branch) && Accounted(start, now)
  }

  lemma OrderGrows(start: State, before: State, now: State, branch: string, submitted: nat, ledger: Ledger, act: Act)
    requires InOrder(start, before, branch, submitted, ledger) && Fits(act, branch, submitted, ledger.changes)
    requires ComesNext(before.acts, |start.acts|, act) && MovedBy(act) == []
    requires Evolves(before, now) && now.acts == before.acts + [act] && now.mine == before.mine
    ensures InOrder(start, now, branch, submitted, Entered(ledger, act))
  {
    ActEnters(before.acts, |start.acts|, branch, submitted, act);
  }

  /** The last thing done was a check of exactly this head. */
  predicate CheckedLast(acts: seq<Act>, from: nat, head: nat) {
    |acts| > from && var last := acts[|acts| - 1]; last.Checking? && last.observeOnly && last.head == head
  }

  lemma SynchronizationInOrder(start: State, before: State, now: State, branch: string, submitted: nat, head: nat,
                               ledger: Ledger, applied: Option<nat>)
    requires Inv(before) && InOrder(start, before, branch, submitted, ledger)
    requires head == HeadOf(submitted, ledger.changes) && CheckedLast(before.acts, |start.acts|, head)
    requires SyncShape(before, now, branch, head, applied)
    requires applied.Some? ==> OwnPush(now, |before.moments| - 1, applied.value, branch, head)
    ensures InOrder(start, now, branch, submitted, Entered(ledger, Synchronizing(head)))
  {
    SynchronizationPushes(start, before, now, branch, head, applied);
    SynchronizationMoves(start, before, now, branch, head, applied);
    SynchronizationListed(before, now, |start.acts|, branch, submitted, head, ledger, applied);
  }

  lemma SynchronizationListed(before: State, now: State, from: nat, branch: string, submitted: nat, head: nat,
                              ledger: Ledger, applied: Option<nat>)
    requires from <= |before.acts| && AllFit(before.acts, from, branch, submitted)
    requires LedgerSince(before.acts, from) == ledger && head == HeadOf(submitted, ledger.changes)
    requires CheckedLast(before.acts, from, head) && SyncShape(before, now, branch, head, applied)
    ensures LedgerSince(now.acts, from) == Entered(ledger, Synchronizing(head))
    ensures AllFit(now.acts, from, branch, submitted)
  {
    SynchronizationActs(before, now, branch, head, applied);
    ActEnters(before.acts, from, branch, submitted, Synchronizing(head));
    WorkIsUnlisted(now.acts, from, |before.acts| + 1, branch, submitted);
  }

  lemma SynchronizationPushes(start: State, before: State, now: State, branch: string, head: nat, applied: Option<nat>)
    requires start.mine <= before.mine && before.moments <= now.moments && OnlyPushes(start, before, branch)
    requires now.mine == before.mine + Moments(applied) && before.moments != []
    requires applied.Some? ==> OwnPush(now, |before.moments| - 1, applied.value, branch, head)
    ensures OnlyPushes(start, now, branch)
  {
  }

  lemma SynchronizationActs(before: State, now: State, branch: string, head: nat, applied: Option<nat>)
    requires SyncShape(before, now, branch, head, applied)
    ensures now.acts[..|before.acts| + 1] == before.acts + [Synchronizing(head)]
    ensures forall k :: |before.acts| < k < |now.acts| ==> Works(now.acts[k], branch, head)
    ensures forall k :: |before.acts| < k < |now.acts| ==> Continues(now.acts[k - 1], now.acts[k])
  {
  }

  lemma SynchronizationMoves(start: State, before: State, now: State, branch: string, head: nat, applied: Option<nat>)
    requires Evolves(start, before) && Accounted(start, before) && SyncShape(before, now, branch, head, applied)
    ensures Accounted(start, now)
  {
    var from, n := |start.acts|, |before.acts|;
    SynchronizationMovesOnce(before, now, branch, head, applied);
    assert now.acts[..n] == before.acts;
    if applied.None? {
      NothingMoved(now.acts, from, n);
    } else {
      OneMove(now.acts, from, n, n + 2);
    }
  }

  lemma SynchronizationMovesOnce(before: State, now: State, branch: string, head: nat, applied: Option<nat>)
    requires SyncShape(before, now, branch, head, applied)
    ensures forall k :: |before.acts| <= k < |now.acts| && k != |before.acts| + 2 ==> MovedBy(now.acts[k]) == []
    ensures if applied.Some? then |now.acts| > |before.acts| + 2
              && MovedBy(now.acts[|before.acts| + 2]) == Moments(applied)
            else forall k :: |before.acts| <= k < |now.acts| ==> MovedBy(now.acts[k]) == []
  {
  }

  /** Of these acts only one moved a ref. */
  lemma OneMove(acts: seq<Act>, from: nat, n: nat, p: nat)
    requires from <= n <= p < |acts| && forall k :: n <= k < |acts| && k != p ==> MovedBy(acts[k]) == []
    ensures MovedSince(acts, from) == MovedSince(acts[..n], from) + MovedBy(acts[p])
  {
    NothingMoved(acts, from, p + 1);
    assert acts[..p + 1][..p] == acts[..p];
    assert acts[..p][..n] == acts[..n];
    NothingMoved(acts[..p], from, n);
  }

  /** Acts that moved no ref add no moment. */
  lemma {:induction false} NothingMoved(acts: seq<Act>, from: nat, upTo: nat)
    requires from <= upTo <= |acts| && forall k :: upTo <= k < |acts| ==> MovedBy(acts[k]) == []
    ensures MovedSince(acts, from) == MovedSince(acts[..upTo], from)
  {
    if upTo == |acts| {
      assert acts[..upTo] == acts;
    } else {
      var earlier := acts[..|acts| - 1];
      NothingMoved(earlier, from, upTo);
      assert earlier[..upTo] == acts[..upTo];
    }
  }

  /** The recorded changes lead from one head to the other, each by one merge on top of the last. */
  ghost predicate HeadChain(store: Store, changes: seq<Change>, submitted: nat, effective: nat) {
    if changes == [] then
      effective == submitted
    else
      var last := changes[|changes| - 1];
      && last.next == effective && effective < |store|
      && |store[effective].parents| == 2 && store[effective].parents[0] == last.previous
      && HeadChain(store, changes[..|changes| - 1], submitted, last.previous)
  }

  lemma {:induction false} HeadChainIsStable(store: Store, more: Store, changes: seq<Change>, submitted: nat,
                                             effective: nat)
    requires store <= more && HeadChain(store, changes, submitted, effective)
    ensures HeadChain(more, changes, submitted, effective)
  {
    if changes != [] {
      HeadChainIsStable(store, more, changes[..|changes| - 1], submitted, changes[|changes| - 1].previous);
    }
  }

  lemma ChainEnds(store: Store, changes: seq<Change>, submitted: nat, effective: nat)
    requires HeadChain(store, changes, submitted, effective)
    ensures effective == HeadOf(submitted, changes)
  {
  }

  lemma HeadChainGrows(store: Store, changes: seq<Change>, submitted: nat, effective: nat, next: nat)
    requires HeadChain(store, changes, submitted, effective)
    requires next < |store| && |store[next].parents| == 2 && store[next].parents[0] == effective
    ensures HeadChain(store, changes + [Change(effective, next)], submitted, next)
  {
    assert (changes + [Change(effective, next)])[..|changes|] == changes;
  }

  /** The effective head holds the submitted one, through first parents only. */
  lemma {:induction false} HeadChainReaches(store: Store, changes: seq<Change>, submitted: nat, effective: nat)
    requires WellFormed(store) && HeadChain(store, changes, submitted, effective) && effective < |store|
    ensures submitted < |store| && ReachesByFirstParents(store, submitted, effective)
              && Reaches(store, submitted, effective)
    ensures changes != [] ==> submitted < effective && changes[|changes| - 1].previous < effective
  {
    if changes != [] {
      HeadChainReaches(store, changes[..|changes| - 1], submitted, changes[|changes| - 1].previous);
    }
    FirstParentsReach(store, submitted, effective);
  }

  // ---------------------------------------------------------------- prepare

  /** Where a preparation without recorded changes leaves the checkout is where it began, and otherwise it is
      at the last recorded head. */
  ghost predicate CheckoutFollows(start: State, now: State, branch: string, effective: nat, changes: seq<Change>) {
    if changes == [] then SameCheckout(start, now) else CheckoutAt(now, branch, effective)
  }

  /** What holds between two rounds of `prepare`. */
  ghost predicate Progress(start: State, now: State, quiet: bool, branch: string, submitted: nat, effective: nat,
                           changes: seq<Change>,
                           avoided: seq<nat>)
    requires Inv(now)
  {
    && Evolves(start, now)
    && HeadChain(now.store, changes, submitted, effective)
    && (changes != [] ==> effective in now.local && ReachesNone(now, avoided, effective))
    && (quiet ==> CheckoutFollows(start, now, branch, effective, changes))
  }

  lemma ProgressIsStable(start: State, before: State, now: State, quiet: bool, branch: string, submitted: nat,
                         effective: nat,
                         changes: seq<Change>, avoided: seq<nat>)
    requires Inv(before) && Inv(now) && Evolves(before, now) && (quiet ==> SameCheckout(before, now))
    requires Progress(start, before, quiet, branch, submitted, effective, changes, avoided)
    ensures Progress(start, now, quiet, branch, submitted, effective, changes, avoided)
  {
    HeadChainIsStable(before.store, now.store, changes, submitted, effective);
    if changes != [] {
      ReachesNoneIsStable(before, now, avoided, effective);
    }
  }

  lemma ProgressGrows(start: State, before: State, now: State, since: Mark, quiet: bool, branch: string, submitted: nat,
                      effective: nat,
                      changes: seq<Change>, next: nat, avoided: seq<nat>)
    requires Inv(before) && Inv(now) && Evolves(before, now)
    requires Progress(start, before, quiet, branch, submitted, effective, changes, avoided)
    requires Synchronized(now, since, branch, effective, next, avoided) && next != effective
    requires quiet ==> CheckoutAt(now, branch, next)
    ensures Progress(start, now, quiet, branch, submitted, next, changes + [Change(effective, next)], avoided)
  {
    HeadChainIsStable(before.store, now.store, changes, submitted, effective);
    var base, target :| BothSince(now, since, base, target, branch, effective) && MergeOf(now, next, effective, target);
    HeadChainGrows(now.store, changes, submitted, effective, next);
  }

  /** A preflight passes when the head may be published onto the target that the forge named, or is in it already. */
  ghost predicate Preflighted(state: State, since: Mark, branch: string, head: nat)
    requires Inv(state)
  {
    HeldSince(state, since, branch, head) || ReadySince(state, since, branch, head)
  }

  lemma PreflightedEarlier(state: State, since: Mark, later: Mark, branch: string, head: nat)
    requires Inv(state) && Earlier(since, later) && Preflighted(state, later, branch, head)
    ensures Preflighted(state, since, branch, head)
  {
    if HeldSince(state, later, branch, head) {
      HeldEarlier(state, since, later, branch, head);
    } else {
      ReadyEarlier(state, since, later, branch, head);
    }
  }

  /** This caller did exactly this, without moving a ref, and may have been told things. */
  ghost predicate Began(before: State, after: State, act: Act) {
    Evolves(before, after) && after.mine == before.mine && after.acts == before.acts + [act]
  }

  /** A preflight ends as the checks of `execute` do, and passes where those would go on to publish. */
  ghost predicate PreflightSays(before: State, after: State, quiet: bool, reliable: bool, number: int, branch: string,
                                head: nat, replaced: Option<nat>, exit: Step<()>)
    requires Inv(after)
  {
    || (!exit.Stopped? && FoundOut(before, after, quiet, reliable, number, branch, head, replaced, true, exit))
    || (exit.Good? && FoundOut(before, after, quiet, reliable, number, branch, head, replaced, true, Stopped))
  }

  /** `preflight`: the checks of `execute`, stopped where it would make its first change. */
  method Preflight(world: World, number: int, branch: string, head: nat, replaced: Option<nat>) returns (exit: Step<()>)
    requires Inv(world.state)
    modifies world
    ensures Inv(world.state)
    // Nothing is created, no ref is moved and the checkout is not touched.
    ensures Began(old(world.state), world.state, Checking(true, head, replaced))
    ensures world.quiet ==> SameCheckout(old(world.state), world.state)
    ensures exit.Good? ==> head in world.state.local
    ensures exit.Good? ==> Preflighted(world.state, Here(old(world.state)), branch, head)
    ensures exit.Good? && world.quiet ==> CheckoutAt(world.state, branch, head)
    ensures exit.Refused? ==> exit.status in {STALE_MAIN, HEAD_CHANGED, NOT_READY, MERGE_ERROR}
    ensures PreflightSays(old(world.state), world.state, world.quiet, world.reliable, number, branch, head, replaced,
                          exit)
    ensures !exit.Stopped?
  {
    ghost var attempt: Option<Attempt>;
    exit, attempt := Execute(world, true, number, branch, head, replaced);
    if exit.Stopped? {
      exit := Good(());
    }
  }

  /** After a refusal the checkout is on its branch at the head that was reached exactly when no merge stands,
      and but for status 79 it is then as the preparation left it. */
  ghost predicate Rests(start: State, now: State, branch: string, effective: nat, changes: seq<Change>, status: nat) {
    && now.branch == (if changes == [] then start.branch else Some(branch))
    && (now.head == (if changes == [] then start.head else effective) <==> !Stands(now.acts))
    && (status != MERGE_ERROR && !Stands(now.acts) ==> CheckoutFollows(start, now, branch, effective, changes))
  }

  /** What a round leaves: the progress, and after a refusal the checkout at rest. */
  ghost predicate Round(start: State, now: State, quiet: bool, branch: string, submitted: nat, effective: nat,
                        changes: seq<Change>,
                        avoided: seq<nat>, exit: Step<()>)
    requires Inv(now)
  {
    && Progress(start, now, quiet && exit.Good?, branch, submitted, effective, changes, avoided)
    && (quiet && exit.Refused? ==> Rests(start, now, branch, effective, changes, exit.status))
  }

  /** A refused synchronization. */
  lemma RefusalRests(start: State, before: State, now: State, quiet: bool, branch: string, submitted: nat,
                     effective: nat,
                     changes: seq<Change>, avoided: seq<nat>, status: nat)
    requires Inv(before) && Inv(now) && Evolves(before, now)
    requires Progress(start, before, quiet, branch, submitted, effective, changes, avoided)
    requires quiet ==> LeftAs(before, now, status)
    ensures Round(start, now, quiet, branch, submitted, effective, changes, avoided, Refused(status))
  {
    ProgressIsStable(start, before, now, false, branch, submitted, effective, changes, avoided);
  }

  /** A pushed merge that was not recorded: the checkout is at the merge, and the head that was reached is the old
      one. */
  lemma UnrecordedRests(start: State, before: State, now: State, quiet: bool, branch: string, submitted: nat,
                        effective: nat, next: nat,
                        changes: seq<Change>, avoided: seq<nat>)
    requires Inv(before) && Inv(now) && Evolves(before, now) && next != effective && Stands(now.acts)
    requires Progress(start, before, quiet, branch, submitted, effective, changes, avoided)
    requires quiet ==> CheckoutAt(before, branch, effective) && CheckoutAt(now, branch, next)
    ensures Round(start, now, quiet, branch, submitted, effective, changes, avoided, Refused(MERGE_ERROR))
  {
    ProgressIsStable(start, before, now, false, branch, submitted, effective, changes, avoided);
  }

  /** What a synchronization of the head that was reached leaves. */
  ghost predicate Followed(before: State, now: State, quiet: bool, branch: string, current: nat, avoided: seq<nat>,
                           next: Step<nat>)
    requires Inv(before) && Inv(now)
  {
    && Evolves(before, now) && |now.acts| > |before.acts| && !next.Stopped?
    && (next.Refused? ==> next.status in {STALE_MAIN, HEAD_CHANGED, NOT_READY, PUBLISH_FAILED, MERGE_ERROR, AVOIDED})
    && (next.Refused? && quiet ==> LeftAs(before, now, next.status))
    && (next == Good(current) ==> now.acts == before.acts + [Synchronizing(current)])
    && (next == Good(current) && quiet ==> SameCheckout(before, now))
    && (next.Good? && next.value != current ==>
          && Synchronized(now, Here(before), branch, current, next.value, avoided)
          && PushedLast(now.acts, branch, current, next.value)
          && (quiet ==> CheckoutAt(before, branch, current) && CheckoutAt(now, branch, next.value)))
  }

  /** A round is refused by what its synchronization says, or because the head that it pushed could not be recorded. */
  ghost predicate RefusedBy(before: State, now: State, quiet: bool, reliable: bool, branch: string, current: nat,
                            exit: Step<()>)
  {
    && Evolves(before, now) && |now.acts| > |before.acts|
    && exit.Refused?
    && (|| SynchronizationSays(before, now, quiet, reliable, branch, current, Refused(exit.status))
        || (var last := now.acts[|now.acts| - 1];
            exit.status == MERGE_ERROR && !reliable && last.Pushing? && last.branch == branch
                && last.expected == current))
  }

  /** The next check may begin. */
  predicate MayCheck(acts: seq<Act>, from: nat) {
    |acts| == from || (|acts| > from && var last := acts[|acts| - 1]; last.Synchronizing? || last.Recorded?)
  }

  /** One synchronization of `prepare`. */
  method FollowTarget(world: World, branch: string, current: nat, avoided: seq<nat>, ghost start: State,
                      ghost submitted: nat,
                      ghost ledger: Ledger)
    returns (next: Step<nat>)
    requires Inv(world.state) && current == HeadOf(submitted, ledger.changes)
    requires InOrder(start, world.state, branch, submitted, ledger)
    requires CheckedLast(world.state.acts, |start.acts|, current)
    modifies world
    ensures Inv(world.state) && Followed(old(world.state), world.state, world.quiet, branch, current, avoided, next)
    ensures next.Refused? ==> RefusedBy(old(world.state), world.state, world.quiet, world.reliable, branch, current,
                                        Refused(next.status))
    ensures InOrder(start, world.state, branch, submitted, Entered(ledger, Synchronizing(current)))
  {
    ghost var before := world.state;
    ghost var applied: Option<nat>;
    next, applied := Synchronize(world, branch, current, avoided);
    SynchronizationInOrder(start, before, world.state, branch, submitted, current, ledger, applied);
  }

  /** One synchronization of `prepare` and the record of the head it reached; the record may be refused. */
  method Follow(world: World, branch: string, current: nat, recorded: seq<Change>, avoided: seq<nat>,
                ghost start: State, ghost submitted: nat, ghost checks: nat, ghost synchronizations: nat)
    returns (exit: Step<()>, effective: nat, changes: seq<Change>)
    requires Inv(world.state)
    requires Progress(start, world.state, world.quiet, branch, submitted, current, recorded, avoided)
    requires InOrder(start, world.state, branch, submitted, Ledger(checks, synchronizations, recorded))
    requires CheckedLast(world.state.acts, |start.acts|, current)
    modifies world
    ensures Inv(world.state) && !exit.Stopped?
    ensures InOrder(start, world.state, branch, submitted, Ledger(checks, synchronizations + 1, changes))
    ensures exit.Good? ==> MayCheck(world.state.acts, |start.acts|)
    ensures |changes| <= |recorded| + 1
    ensures exit.Refused? ==> exit.status in {STALE_MAIN, HEAD_CHANGED, NOT_READY, PUBLISH_FAILED, MERGE_ERROR, AVOIDED}
    ensures Evolves(old(world.state), world.state)
    ensures exit.Refused? ==>
              RefusedBy(old(world.state), world.state, world.quiet, world.reliable, branch, current, exit)
    ensures Round(start, world.state, world.quiet, branch, submitted, effective, changes, avoided, exit)
  {
    ghost var before := world.state;
    ChainEnds(before.store, recorded, submitted, current);
    var next := FollowTarget(world, branch, current, avoided, start, submitted,
                             Ledger(checks, synchronizations, recorded));
    exit, effective, changes := Settle(world, branch, current, next, recorded, avoided, start, before, submitted,
                                       checks,
                                       synchronizations + 1);
  }

  /** What `prepare` makes of the result of a synchronization. */
  method Settle(world: World, branch: string, current: nat, next: Step<nat>, recorded: seq<Change>,
                ghost avoided: seq<nat>,
                ghost start: State, ghost before: State, ghost submitted: nat, ghost checks: nat,
                    ghost synchronizations: nat)
    returns (exit: Step<()>, effective: nat, changes: seq<Change>)
    requires Inv(before) && Progress(start, before, world.quiet, branch, submitted, current, recorded, avoided)
    requires Inv(world.state) && Followed(before, world.state, world.quiet, branch, current, avoided, next)
    requires next.Refused? ==> RefusedBy(before, world.state, world.quiet, world.reliable, branch, current,
                                         Refused(next.status))
    requires InOrder(start, world.state, branch, submitted, Ledger(checks, synchronizations, recorded))
    requires current == HeadOf(submitted, recorded)
    modifies world
    ensures Inv(world.state) && !exit.Stopped?
    ensures InOrder(start, world.state, branch, submitted, Ledger(checks, synchronizations, changes))
    ensures exit.Good? ==> MayCheck(world.state.acts, |start.acts|)
    ensures |changes| <= |recorded| + 1
    ensures exit.Refused? ==> exit.status in {STALE_MAIN, HEAD_CHANGED, NOT_READY, PUBLISH_FAILED, MERGE_ERROR, AVOIDED}
    ensures exit.Refused? ==> RefusedBy(before, world.state, world.quiet, world.reliable, branch, current, exit)
    ensures Evolves(old(world.state), world.state)
    ensures Round(start, world.state, world.quiet, branch, submitted, effective, changes, avoided, exit)
  {
    if next.Good? && next.value != current {
      exit, effective, changes := RecordChange(world, branch, current, next.value, recorded, avoided, start, before,
                                               submitted, checks,
                                               synchronizations);
    } else {
      exit, effective, changes := Rest(world, branch, current, next, recorded, avoided, start, before, submitted,
                                       checks,
                                       synchronizations);
    }
  }

  /** A synchronization without a new head: the round goes on, or is refused. */
  method Rest(world: World, branch: string, current: nat, next: Step<nat>, recorded: seq<Change>,
              ghost avoided: seq<nat>, ghost start: State, ghost before: State, ghost submitted: nat, ghost checks: nat,
              ghost synchronizations: nat)
    returns (exit: Step<()>, effective: nat, changes: seq<Change>)
    requires Inv(before) && Progress(start, before, world.quiet, branch, submitted, current, recorded, avoided)
    requires Inv(world.state) && Followed(before, world.state, world.quiet, branch, current, avoided, next)
    requires next.Good? ==> next.value == current
    requires |start.acts| <= |before.acts|
    ensures !exit.Stopped? && effective == current && changes == recorded
    ensures if next.Good? then exit.Good? else exit == Refused(next.status)
    ensures exit.Good? ==> MayCheck(world.state.acts, |start.acts|)
    ensures exit.Refused? ==> exit.status in {STALE_MAIN, HEAD_CHANGED, NOT_READY, PUBLISH_FAILED, MERGE_ERROR, AVOIDED}
    ensures Round(start, world.state, world.quiet, branch, submitted, effective, changes, avoided, exit)
  {
    exit, effective, changes := if next.Good? then Good(()) else Refused(next.status), current, recorded;
    SettledRound(start, before, world.state, world.quiet, branch, submitted, current, recorded, avoided, next);
  }

  lemma SettledRound(start: State, before: State, now: State, quiet: bool, branch: string, submitted: nat,
                     effective: nat,
                     changes: seq<Change>, avoided: seq<nat>, next: Step<nat>)
    requires Inv(before) && Inv(now) && Progress(start, before, quiet, branch, submitted, effective, changes, avoided)
    requires Followed(before, now, quiet, branch, effective, avoided, next) && (next.Good? ==> next.value == effective)
    ensures Round(start, now, quiet, branch, submitted, effective, changes, avoided, if next.Good? then Good(())
                  else Refused(next.status))
  {
    if next.Good? {
      ProgressIsStable(start, before, now, quiet, branch, submitted, effective, changes, avoided);
    } else {
      RefusalRests(start, before, now, quiet, branch, submitted, effective, changes, avoided, next.status);
    }
  }

  /** The durable record of a replaced head. */
  method RecordChange(world: World, branch: string, current: nat, next: nat, recorded: seq<Change>,
                      ghost avoided: seq<nat>,
                      ghost start: State, ghost before: State, ghost submitted: nat, ghost checks: nat,
                          ghost synchronizations: nat)
    returns (exit: Step<()>, effective: nat, changes: seq<Change>)
    requires Inv(before) && Progress(start, before, world.quiet, branch, submitted, current, recorded, avoided)
    requires Inv(world.state) && Evolves(before, world.state) && next != current
    requires PushedLast(world.state.acts, branch, current, next) && |world.state.acts| > |start.acts|
    requires |world.state.acts| > |before.acts|
    requires InOrder(start, world.state, branch, submitted, Ledger(checks, synchronizations, recorded))
    requires current == HeadOf(submitted, recorded)
    requires Synchronized(world.state, Here(before), branch, current, next, avoided)
    requires world.quiet ==> CheckoutAt(before, branch, current) && CheckoutAt(world.state, branch, next)
    modifies world
    ensures Inv(world.state) && !exit.Stopped?
    ensures InOrder(start, world.state, branch, submitted, Ledger(checks, synchronizations, changes))
    ensures exit.Good? ==> MayCheck(world.state.acts, |start.acts|)
    ensures if exit.Good? then changes == recorded + [Change(current, next)]
            else exit == Refused(MERGE_ERROR) && changes == recorded
    ensures Evolves(old(world.state), world.state)
    ensures exit.Refused? ==> RefusedBy(before, world.state, world.quiet, world.reliable, branch, current, exit)
    ensures effective == if exit.Good? then next else current
    ensures Round(start, world.state, world.quiet, branch, submitted, effective, changes, avoided, exit)
  {
    ghost var pushed := world.state;
    var accepted := world.RecordHead(current, next);
    if accepted {
      RecordedRound(start, before, pushed, world.state, world.quiet, branch, submitted, current, next, recorded,
                    avoided,
                    checks, synchronizations);
      exit, effective, changes := Good(()), next, recorded + [Change(current, next)];
    } else {
      UnrecordedRests(start, before, world.state, world.quiet, branch, submitted, current, next, recorded, avoided);
      exit, effective, changes := Refused(MERGE_ERROR), current, recorded;
    }
  }

  lemma RecordedRound(start: State, before: State, pushed: State, now: State, quiet: bool, branch: string,
                      submitted: nat, current: nat, next: nat, recorded: seq<Change>, avoided: seq<nat>, checks: nat,
                      synchronizations: nat)
    requires Inv(before) && Progress(start, before, quiet, branch, submitted, current, recorded, avoided)
    requires Inv(pushed) && Evolves(before, pushed) && next != current && |pushed.acts| > |start.acts|
    requires PushedLast(pushed.acts, branch, current, next)
    requires InOrder(start, pushed, branch, submitted, Ledger(checks, synchronizations, recorded))
    requires current == HeadOf(submitted, recorded)
    requires Synchronized(pushed, Here(before), branch, current, next, avoided)
    requires quiet ==> CheckoutAt(pushed, branch, next)
    requires Inv(now) && Does(pushed, now, Recorded(current, next)) && (quiet ==> SameCheckout(pushed, now))
    ensures InOrder(start, now, branch, submitted, Ledger(checks, synchronizations, recorded + [Change(current, next)]))
    ensures Round(start, now, quiet, branch, submitted, next, recorded + [Change(current, next)], avoided, Good(()))
  {
    ProgressGrows(start, before, pushed, Here(before), quiet, branch, submitted, current, recorded, next, avoided);
    OrderGrows(start, pushed, now, branch, submitted, Ledger(checks, synchronizations, recorded),
               Recorded(current, next));
    ProgressIsStable(start, pushed, now, quiet, branch, submitted, next, recorded + [Change(current, next)], avoided);
  }

  /** One check of a preparation: the states before and after it, the head it checked and the head that one replaced. */
  datatype Turn = Turn(before: State, checked: State, head: nat, replaced: Option<nat>)

  ghost predicate TurnOk(turn: Turn, quiet: bool, reliable: bool, number: int, branch: string, exit: Step<()>) {
    && Inv(turn.checked) && Began(turn.before, turn.checked, Checking(true, turn.head, turn.replaced))
    && PreflightSays(turn.before, turn.checked, quiet, reliable, number, branch, turn.head, turn.replaced, exit)
  }

  /** These checks were made one after the other, and so many of them were followed by a synchronization, each refused
      with status 75. */
  ghost predicate Stale(start: State, now: State, quiet: bool, reliable: bool, number: int, branch: string,
                        turns: seq<Turn>, synchronizations: nat)
  {
    && (forall k :: 0 <= k < |turns| ==> Evolves(start, turns[k].before) && Evolves(turns[k].checked, now))
    && (forall k :: 0 <= k < |turns| && k < synchronizations ==>
          TurnOk(turns[k], quiet, reliable, number, branch, Refused(STALE_MAIN)))
  }

  /** The last round decides: its check, unless that was refused with status 75 and what followed was refused too. */
  ghost predicate LastDecides(now: State, quiet: bool, reliable: bool, number: int, branch: string, turns: seq<Turn>,
                              synchronizations: nat, exit: Step<()>)
  {
    && 0 < |turns| && synchronizations <= |turns| <= synchronizations + 1
    && var last := turns[|turns| - 1];
       if synchronizations < |turns| then
         last.checked == now && TurnOk(last, quiet, reliable, number, branch, exit)
       else
         RefusedBy(last.checked, now, quiet, reliable, branch, last.head, exit)
  }

  lemma CheckDecides(quiet: bool, reliable: bool, number: int, branch: string, turns: seq<Turn>, turn: Turn,
                     exit: Step<()>)
    requires TurnOk(turn, quiet, reliable, number, branch, exit)
    ensures LastDecides(turn.checked, quiet, reliable, number, branch, turns + [turn], |turns|, exit)
  {
  }

  lemma RefusalDecides(now: State, quiet: bool, reliable: bool, number: int, branch: string, turns: seq<Turn>,
                       turn: Turn, exit: Step<()>)
    requires RefusedBy(turn.checked, now, quiet, reliable, branch, turn.head, exit)
    ensures LastDecides(now, quiet, reliable, number, branch, turns + [turn], |turns| + 1, exit)
  {
  }

  lemma StaleGrows(start: State, now: State, later: State, quiet: bool, reliable: bool, number: int, branch: string,
                   turns: seq<Turn>, turn: Turn, synchronizations: nat)
    requires Stale(start, now, quiet, reliable, number, branch, turns, |turns|)
    requires turn.before == now && Evolves(start, now) && Evolves(now, turn.checked) && Evolves(turn.checked, later)
    requires |turns| < synchronizations ==> TurnOk(turn, quiet, reliable, number, branch, Refused(STALE_MAIN))
    ensures Stale(start, later, quiet, reliable, number, branch, turns + [turn], synchronizations)
  {
  }

  /** One preflight of `prepare`, which waits for a replaced head to disappear from the forge's answers. */
  method CheckAgain(world: World, number: int, branch: string, effective: nat, changes: seq<Change>,
                    ghost avoided: seq<nat>,
                    ghost start: State, ghost submitted: nat, ghost rounds: nat)
    returns (exit: Step<()>)
    requires Inv(world.state) && start.moments != []
    requires Progress(start, world.state, world.quiet, branch, submitted, effective, changes, avoided)
    requires InOrder(start, world.state, branch, submitted, Ledger(rounds, rounds, changes))
    requires MayCheck(world.state.acts, |start.acts|)
    modifies world
    ensures Inv(world.state) && !exit.Stopped?
    ensures Progress(start, world.state, world.quiet, branch, submitted, effective, changes, avoided)
    ensures InOrder(start, world.state, branch, submitted, Ledger(rounds + 1, rounds, changes))
    ensures CheckedLast(world.state.acts, |start.acts|, effective)
    ensures TurnOk(Turn(old(world.state), world.state, effective, Replaced(changes)), world.quiet, world.reliable,
                   number,
                   branch, exit)
    ensures exit.Good? ==> effective in world.state.local && Preflighted(world.state, Here(start), branch, effective)
    ensures exit.Good? && world.quiet ==> CheckoutAt(world.state, branch, effective)
    ensures exit.Refused? ==> exit.status in {STALE_MAIN, HEAD_CHANGED, NOT_READY, MERGE_ERROR}
    ensures exit.Refused? && world.quiet ==> Rests(start, world.state, branch, effective, changes, exit.status)
  {
    ghost var before := world.state;
    exit := Preflight(world, number, branch, effective, Replaced(changes));
    if exit.Good? {
      PreflightedEarlier(world.state, Here(start), Here(before), branch, effective);
    }
    ProgressIsStable(start, before, world.state, world.quiet, branch, submitted, effective, changes, avoided);
    OrderGrows(start, before, world.state, branch, submitted, Ledger(rounds, rounds, changes),
               Checking(true, effective, Replaced(changes)));
  }

  /** What a preparation did: at most five checks and four synchronizations, each of the head reached so far,
      and nothing of a publication. */
  ghost predicate Prepared(start: State, now: State, branch: string, submitted: nat, changes: seq<Change>)
    requires Evolves(start, now)
  {
    var ledger := LedgerSince(now.acts, |start.acts|);
    && InOrder(start, now, branch, submitted, ledger)
    && ledger.changes == changes && |changes| <= ledger.synchronizations < MAX_PREFLIGHTS
    && ledger.synchronizations <= ledger.checks <= ledger.synchronizations + 1
  }

  /** What holds before each round of a preparation. */
  ghost predicate Between(start: State, now: State, quiet: bool, reliable: bool, number: int, branch: string,
                          submitted: nat, effective: nat, changes: seq<Change>, avoided: seq<nat>, turns: seq<Turn>,
                          attempt: nat)
    requires Inv(now)
  {
    && Progress(start, now, quiet, branch, submitted, effective, changes, avoided)
    && InOrder(start, now, branch, submitted, Ledger(attempt, attempt, changes))
    && MayCheck(now.acts, |start.acts|)
    && |changes| <= attempt == |turns|
    && Stale(start, now, quiet, reliable, number, branch, turns, attempt)
  }

  /** What the last round of a preparation leaves. */
  ghost predicate Finished(start: State, now: State, quiet: bool, reliable: bool, number: int, branch: string,
                           submitted: nat, effective: nat, changes: seq<Change>, avoided: seq<nat>, turns: seq<Turn>,
                           synchronizations: nat, exit: Step<()>)
    requires Inv(now) && start.moments != []
  {
    && InOrder(start, now, branch, submitted, Ledger(|turns|, synchronizations, changes))
    && |changes| <= synchronizations < MAX_PREFLIGHTS
    && Round(start, now, quiet, branch, submitted, effective, changes, avoided, exit)
    && Stale(start, now, quiet, reliable, number, branch, turns, synchronizations)
    && LastDecides(now, quiet, reliable, number, branch, turns, synchronizations, exit)
    && (exit.Good? ==>
          && effective in now.local && Preflighted(now, Here(start), branch, effective)
          && CheckedLast(now.acts, |start.acts|, effective) && (quiet ==> CheckoutAt(now, branch, effective)))
  }

  /** A round after its check. */
  ghost predicate Checked(start: State, turn: Turn, quiet: bool, reliable: bool, number: int, branch: string,
                          submitted: nat, effective: nat, changes: seq<Change>, avoided: seq<nat>, turns: seq<Turn>,
                          exit: Step<()>)
    requires Inv(turn.checked) && start.moments != []
  {
    && turn.head == effective && TurnOk(turn, quiet, reliable, number, branch, exit)
    && Inv(turn.before) && Evolves(start, turn.before) && Evolves(turn.before, turn.checked)
    && Stale(start, turn.before, quiet, reliable, number, branch, turns, |turns|)
    && InOrder(start, turn.checked, branch, submitted, Ledger(|turns| + 1, |turns|, changes))
    && |changes| <= |turns| < MAX_PREFLIGHTS
    && Progress(start, turn.checked, quiet, branch, submitted, effective, changes, avoided)
    && (exit.Refused? && quiet ==> Rests(start, turn.checked, branch, effective, changes, exit.status))
    && CheckedLast(turn.checked.acts, |start.acts|, effective)
    && (exit.Good? ==>
          && effective in turn.checked.local && Preflighted(turn.checked, Here(start), branch, effective)
          && (quiet ==> CheckoutAt(turn.checked, branch, effective)))
  }

  /** The check of one round. */
  method CheckTurn(world: World, number: int, branch: string, current: nat, recorded: seq<Change>,
                   ghost avoided: seq<nat>, ghost start: State, ghost submitted: nat, ghost earlier: seq<Turn>)
    returns (exit: Step<()>, ghost turn: Turn)
    requires Inv(world.state) && start.moments != [] && |earlier| < MAX_PREFLIGHTS
    requires Between(start, world.state, world.quiet, world.reliable, number, branch, submitted, current, recorded,
                     avoided, earlier, |earlier|)
    modifies world
    ensures Inv(world.state) && turn.checked == world.state && !exit.Stopped?
    ensures Checked(start, turn, world.quiet, world.reliable, number, branch, submitted, current, recorded, avoided,
                    earlier, exit)
    ensures exit.Refused? ==> exit.status in {STALE_MAIN, HEAD_CHANGED, NOT_READY, MERGE_ERROR}
  {
    ghost var before := world.state;
    exit := CheckAgain(world, number, branch, current, recorded, avoided, start, submitted, |earlier|);
    turn := Turn(before, world.state, current, Replaced(recorded));
  }

  /** One round of `prepare`: a check, and the last one unless it was refused with status 75 and may be followed. */
  method Attempt(world: World, synchronize: bool, number: int, branch: string, current: nat, recorded: seq<Change>,
                 avoided: seq<nat>, attempt: nat, ghost start: State, ghost submitted: nat, ghost earlier: seq<Turn>)
    returns (done: bool, exit: Step<()>, effective: nat, changes: seq<Change>, ghost turns: seq<Turn>,
             ghost synchronizations: nat)
    requires Inv(world.state) && start.moments != [] && attempt < MAX_PREFLIGHTS
    requires Between(start, world.state, world.quiet, world.reliable, number, branch, submitted, current, recorded,
                     avoided, earlier, attempt)
    modifies world
    ensures Inv(world.state) && !exit.Stopped? && |turns| == attempt + 1
    ensures !done ==>
              && synchronize && attempt < MAX_PREFLIGHTS - 1
              && Between(start, world.state, world.quiet, world.reliable, number, branch, submitted, effective, changes,
                         avoided, turns, attempt + 1)
    ensures attempt <= synchronizations <= attempt + 1 && (synchronizations > attempt ==> synchronize)
    ensures done ==>
              Finished(start, world.state, world.quiet, world.reliable, number, branch, submitted, effective, changes,
                       avoided, turns, synchronizations, exit)
    ensures done && synchronize && exit == Refused(STALE_MAIN) ==>
              |turns| == MAX_PREFLIGHTS || synchronizations == |turns|
    ensures exit.Refused? ==> exit.status in {STALE_MAIN, HEAD_CHANGED, NOT_READY, PUBLISH_FAILED, MERGE_ERROR, AVOIDED}
  {
    var checked: Step<()>;
    ghost var turn: Turn;
    checked, turn := CheckTurn(world, number, branch, current, recorded, avoided, start, submitted, earlier);
    done, exit, effective, changes, synchronizations := Conclude(world, synchronize, attempt, number, branch, current,
                                                                 recorded, avoided, start, submitted, earlier, turn,
                                                                 checked);
    turns := earlier + [turn];
  }

  /** What `prepare` makes of a check. */
  method Conclude(world: World, synchronize: bool, attempt: nat, ghost number: int, branch: string, current: nat,
                  recorded: seq<Change>, avoided: seq<nat>, ghost start: State, ghost submitted: nat,
                  ghost turns: seq<Turn>, ghost turn: Turn, checked: Step<()>)
    returns (done: bool, exit: Step<()>, effective: nat, changes: seq<Change>, ghost synchronizations: nat)
    requires Inv(world.state) && start.moments != [] && attempt < MAX_PREFLIGHTS && attempt == |turns|
    requires turn.checked == world.state && !checked.Stopped?
    requires checked.Refused? ==> checked.status in {STALE_MAIN, HEAD_CHANGED, NOT_READY, MERGE_ERROR}
    requires Checked(start, turn, world.quiet, world.reliable, number, branch, submitted, current, recorded, avoided,
                     turns, checked)
    modifies world
    ensures Inv(world.state) && !exit.Stopped?
    ensures !done ==>
              && synchronize && attempt < MAX_PREFLIGHTS - 1
              && Between(start, world.state, world.quiet, world.reliable, number, branch, submitted, effective, changes,
                         avoided, turns + [turn], attempt + 1)
    ensures attempt <= synchronizations <= attempt + 1 && (synchronizations > attempt ==> synchronize)
    ensures done ==>
              Finished(start, world.state, world.quiet, world.reliable, number, branch, submitted, effective, changes,
                       avoided, turns + [turn], synchronizations, exit)
    ensures done && synchronize && exit == Refused(STALE_MAIN) ==>
              attempt + 1 == MAX_PREFLIGHTS || synchronizations == attempt + 1
    ensures exit.Refused? ==> exit.status in {STALE_MAIN, HEAD_CHANGED, NOT_READY, PUBLISH_FAILED, MERGE_ERROR, AVOIDED}
  {
    if checked != Refused(STALE_MAIN) || !synchronize || attempt == MAX_PREFLIGHTS - 1 {
      CheckFinishes(start, turn, world.quiet, world.reliable, number, branch, submitted, current, recorded, avoided,
                    turns, checked);
      return true, checked, current, recorded, attempt;
    }
    done, exit, effective, changes := FollowUp(world, number, branch, current, recorded, avoided, start, submitted,
                                               turns, turn);
    synchronizations := attempt + 1;
  }

  /** The synchronization after a check that was refused with status 75. */
  method FollowUp(world: World, ghost number: int, branch: string, current: nat, recorded: seq<Change>,
                  avoided: seq<nat>, ghost start: State, ghost submitted: nat, ghost turns: seq<Turn>, ghost turn: Turn)
    returns (done: bool, exit: Step<()>, effective: nat, changes: seq<Change>)
    requires Inv(world.state) && start.moments != []
    requires turn.checked == world.state && |turns| < MAX_PREFLIGHTS - 1
    requires Checked(start, turn, world.quiet, world.reliable, number, branch, submitted, current, recorded, avoided,
                     turns, Refused(STALE_MAIN))
    modifies world
    ensures Inv(world.state) && !exit.Stopped? && done == exit.Refused?
    ensures !done ==>
              Between(start, world.state, world.quiet, world.reliable, number, branch, submitted, effective, changes,
                      avoided, turns + [turn], |turns| + 1)
    ensures done ==>
              Finished(start, world.state, world.quiet, world.reliable, number, branch, submitted, effective, changes,
                       avoided, turns + [turn], |turns| + 1, exit)
    ensures exit.Refused? ==> exit.status in {STALE_MAIN, HEAD_CHANGED, NOT_READY, PUBLISH_FAILED, MERGE_ERROR, AVOIDED}
  {
    exit, effective, changes := Follow(world, branch, current, recorded, avoided, start, submitted, |turns| + 1,
                                       |turns|);
    done := !exit.Good?;
    FollowFinishes(start, turn, world.state, world.quiet, world.reliable, number, branch, submitted, effective, changes,
                   avoided, turns, exit);
  }

  lemma FollowFinishes(start: State, turn: Turn, now: State, quiet: bool, reliable: bool, number: int, branch: string,
                       submitted: nat, effective: nat, changes: seq<Change>, avoided: seq<nat>, turns: seq<Turn>,
                       exit: Step<()>)
    requires start.moments != [] && Inv(now) && TurnOk(turn, quiet, reliable, number, branch, Refused(STALE_MAIN))
    requires Evolves(start, turn.before) && Evolves(turn.before, turn.checked) && Evolves(turn.checked, now)
    requires Stale(start, turn.before, quiet, reliable, number, branch, turns, |turns|)
    requires InOrder(start, now, branch, submitted, Ledger(|turns| + 1, |turns| + 1, changes))
    requires |changes| <= |turns| + 1 < MAX_PREFLIGHTS && !exit.Stopped?
    requires Round(start, now, quiet, branch, submitted, effective, changes, avoided, exit)
    requires exit.Good? ==> MayCheck(now.acts, |start.acts|)
    requires exit.Refused? ==> RefusedBy(turn.checked, now, quiet, reliable, branch, turn.head, exit)
    ensures exit.Good? ==>
              Between(start, now, quiet, reliable, number, branch, submitted, effective, changes, avoided,
                      turns + [turn],
                      |turns| + 1)
    ensures exit.Refused? ==>
              Finished(start, now, quiet, reliable, number, branch, submitted, effective, changes, avoided,
                       turns + [turn],
                       |turns| + 1, exit)
  {
    StaleGrows(start, turn.before, now, quiet, reliable, number, branch, turns, turn, |turns| + 1);
    if exit.Refused? {
      RefusalDecides(now, quiet, reliable, number, branch, turns, turn, exit);
    }
  }

  lemma CheckFinishes(start: State, turn: Turn, quiet: bool, reliable: bool, number: int, branch: string,
                      submitted: nat, effective: nat, changes: seq<Change>, avoided: seq<nat>, turns: seq<Turn>,
                      exit: Step<()>)
    requires start.moments != [] && Inv(turn.checked) && !exit.Stopped?
    requires Checked(start, turn, quiet, reliable, number, branch, submitted, effective, changes, avoided, turns, exit)
    ensures Finished(start, turn.checked, quiet, reliable, number, branch, submitted, effective, changes, avoided,
                     turns + [turn], |turns|, exit)
  {
    StaleGrows(start, turn.before, turn.checked, quiet, reliable, number, branch, turns, turn, |turns|);
    CheckDecides(quiet, reliable, number, branch, turns, turn, exit);
  }

  /** The rounds of a preparation, until one ends it. */
  method Rounds(world: World, synchronize: bool, number: int, branch: string, head: nat, avoided: seq<nat>)
    returns (exit: Step<()>, effective: nat, changes: seq<Change>, ghost turns: seq<Turn>,
             ghost synchronizations: nat)
    requires Inv(world.state)
    modifies world
    ensures Inv(world.state) && !exit.Stopped?
    ensures Finished(old(world.state), world.state, world.quiet, world.reliable, number, branch, head, effective,
                     changes, avoided, turns, synchronizations, exit)
    ensures 1 <= |turns| <= MAX_PREFLIGHTS && |turns| - 1 <= synchronizations <= |turns|
    ensures !synchronize ==> |turns| == 1 && synchronizations == 0
    ensures synchronize && exit == Refused(STALE_MAIN) ==>
              |turns| == MAX_PREFLIGHTS || synchronizations == |turns|
    ensures exit.Refused? ==> exit.status in {STALE_MAIN, HEAD_CHANGED, NOT_READY, PUBLISH_FAILED, MERGE_ERROR, AVOIDED}
  {
    ghost var start := world.state;
    exit, effective, changes, turns, synchronizations := Refused(STALE_MAIN), head, [], [], 0;
    for attempt := 0 to MAX_PREFLIGHTS
      invariant Inv(world.state) && attempt < MAX_PREFLIGHTS
      invariant Between(start, world.state, world.quiet, world.reliable, number, branch, head, effective, changes,
                        avoided,
                        turns, attempt)
      invariant !synchronize ==> attempt == 0
    {
      var done: bool;
      done, exit, effective, changes, turns, synchronizations :=
        Attempt(world, synchronize, number, branch, effective, changes, avoided, attempt, start, head, turns);
      if done {
        break;
      }
    }
  }

  /** `prepare`: preflight the head, and while the target keeps moving merge it in, push and try again.
      `changes` are the head changes the durable record acknowledged. */
  method Prepare(world: World, synchronize: bool, number: int, branch: string, head: nat, avoided: seq<nat>)
    returns (exit: Step<()>, effective: nat, changes: seq<Change>, ghost turns: seq<Turn>)
    requires Inv(world.state)
    modifies world
    ensures Inv(world.state) && Evolves(old(world.state), world.state)
    ensures !exit.Stopped?
    // Exactly the checks refused with status 75 are followed by a synchronization; the last round gives the status.
    ensures var ledger := LedgerSince(world.state.acts, |old(world.state).acts|);
            && |turns| == ledger.checks
            && Stale(old(world.state), world.state, world.quiet, world.reliable, number, branch, turns,
                     ledger.synchronizations)
            && LastDecides(world.state, world.quiet, world.reliable, number, branch, turns, ledger.synchronizations,
                           exit)
            && (synchronize && exit == Refused(STALE_MAIN) ==>
                ledger.checks == MAX_PREFLIGHTS || ledger.synchronizations == ledger.checks)
    // At most five checks and four synchronizations, each of the head reached so far, and no publication.
    ensures Prepared(old(world.state), world.state, branch, head, changes)
    ensures !synchronize ==> LedgerSince(world.state.acts, |old(world.state).acts|) == Ledger(1, 0, [])
    // The returned head is the submitted one or the last one recorded, and holds the submitted one.
    ensures HeadChain(world.state.store, changes, head, effective)
    ensures changes != [] ==> effective in world.state.local && ReachesNone(world.state, avoided, effective)
    ensures exit.Good? ==> effective in world.state.local
    ensures exit.Good? ==> Preflighted(world.state, Here(old(world.state)), branch, effective)
    ensures exit.Good? ==> CheckedLast(world.state.acts, |old(world.state).acts|, effective)
    ensures exit.Good? && world.quiet ==> CheckoutAt(world.state, branch, effective)
    ensures exit.Refused? ==> exit.status in {STALE_MAIN, HEAD_CHANGED, NOT_READY, PUBLISH_FAILED, MERGE_ERROR, AVOIDED}
    ensures exit.Refused? && world.quiet ==>
              Rests(old(world.state), world.state, branch, effective, changes, exit.status)
  {
    ghost var synchronizations: nat;
    exit, effective, changes, turns, synchronizations := Rounds(world, synchronize, number, branch, head, avoided);
  }
}
