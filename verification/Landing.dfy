/** A landing job: prepare one head, gate exactly that head, publish exactly that head. */
module Landing {

  import opened Outcomes
  import opened Commits
  import opened Forge
  import opened Publication
  import opened Preparation

  /** The call returns a status, or an error of a callback ends it. */
  datatype Exit = Returned(status: nat) | Raised

  // ---------------------------------------------------------------- the order of a landing

  /** The gate passed for exactly this head: a receipt covers it, or the command ended with status 0 and, nobody
      else touching the checkout, saw it clean at this head. */
  predicate GreenGate(act: Act, head: nat, quiet: bool) {
    act == Reused(head) || (act.Gate? && act.status == 0 && (quiet ==> act.seen == head && act.clean))
  }

  predicate PreparationAct(act: Act) {
    (act.Checking? && act.observeOnly) || act.Synchronizing? || act.Merging? || act.Aborting? || act.Resetting?
        || act.Pushing?
        || act.Recorded?
  }

  /** What may be done right after `previous`, in a landing of `branch` that reaches `head`. */
  predicate Follows(previous: Act, act: Act, branch: string, head: nat, quiet: bool) {
    match act
    case Reported(PreflightPhase) => false
    case Reported(GatingPhase) => previous.Checking? && previous.observeOnly && previous.head == head
    case Reused(covered) => covered == head && previous.Checking? && previous.observeOnly && previous.head == head
    case Gate(seen, clean, _) => previous == Reported(GatingPhase) && (quiet ==> seen == head && clean)
    case Reported(GateFailedPhase(status)) => previous.Gate? && previous.status == status && status != 0
    case Reported(PublishingPhase) => GreenGate(previous, head, quiet)
    case Creating(_, _) => previous == Checking(false, head, None)
    case Updating(_, _, _, updated, gated, _, _) => previous.Creating? && updated == branch && gated == head
    case Checking(observeOnly, checked, replaced) =>
      if observeOnly then previous == Reported(PreflightPhase) || Continues(previous, act)
      else previous == Reported(PublishingPhase) && checked == head && replaced == None
    case Pushing(pushed, _, _, _, _) => pushed == branch && Continues(previous, act)
    case _ => Continues(previous, act)
  }

  predicate Allowed(acts: seq<Act>, k: nat, branch: string, head: nat, quiet: bool)
    requires 0 < k < |acts|
  {
    Follows(acts[k - 1], acts[k], branch, head, quiet)
  }

  /** A landing begins with its preflight phase, and each act is allowed by the one before it. */
  ghost predicate Chain(acts: seq<Act>, from: nat, branch: string, head: nat, quiet: bool) {
    && (from < |acts| ==> acts[from] == Reported(PreflightPhase))
    && forall k :: from < k < |acts| ==> Allowed(acts, k, branch, head, quiet)
  }

  /** How far a landing is. */
  function Rank(act: Act): nat {
    match act
    case Reported(PreflightPhase) => 0
    case Reported(GatingPhase) => 2
    case Reused(_) => 3
    case Gate(_, _, _) => 3
    case Reported(GateFailedPhase(_)) => 4
    case Reported(PublishingPhase) => 4
    case Checking(observeOnly, _, _) => if observeOnly then 1 else 5
    case Creating(_, _) => 6
    case Updating(_, _, _, _, _, _, _) => 7
    case _ => 1
  }

  /** A landing never goes back. */
  lemma {:induction false} RanksRise(acts: seq<Act>, from: nat, branch: string, head: nat, quiet: bool, j: nat, k: nat)
    requires Chain(acts, from, branch, head, quiet) && from <= j < k < |acts|
    ensures Rank(acts[j]) <= Rank(acts[k]) && (Rank(acts[k]) != 1 ==> Rank(acts[j]) < Rank(acts[k]))
    decreases k
  {
    assert Allowed(acts, k, branch, head, quiet);
    if j < k - 1 {
      RanksRise(acts, from, branch, head, quiet, j, k - 1);
    }
  }

  /** After a green gate a landing does not return to its preparation. */
  lemma GatedIsLate(before: seq<Act>, acts: seq<Act>, from: nat, branch: string, head: nat, quiet: bool)
    requires from < |before| && before <= acts && Chain(acts, from, branch, head, quiet)
    requires GreenGate(before[|before| - 1], head, quiet)
    ensures Rank(acts[|acts| - 1]) > 1
  {
    if |acts| > |before| {
      RanksRise(acts, from, branch, head, quiet, |before| - 1, |acts| - 1);
    }
  }

  /** The published head passed its gate: behind every update of the target lie, in this order, the preflight of
      exactly the published head, the green gate of it, and the durable step to publishing. After that preflight no
      head was merged, pushed or recorded any more, and no other update was tried. */
  lemma PublishedIsGated(acts: seq<Act>, from: nat, branch: string, head: nat, quiet: bool, k: nat)
    returns (checked: nat, gate: nat)
    requires Chain(acts, from, branch, head, quiet) && from <= k < |acts| && acts[k].Updating?
    ensures from < checked < gate < k && acts[k].branch == branch && acts[k].head == head
    ensures acts[checked].Checking? && acts[checked].observeOnly && acts[checked].head == head
    ensures GreenGate(acts[gate], head, quiet) && acts[gate + 1] == Reported(PublishingPhase)
    ensures forall j :: checked < j < |acts| ==> !PreparationAct(acts[j])
    ensures forall j :: from <= j < |acts| && acts[j].Updating? ==> j == k
    ensures forall j :: from <= j < |acts| && acts[j].Gate? ==> acts[j].status == 0
  {
    assert acts[from] == Reported(PreflightPhase);
    assert Allowed(acts, k, branch, head, quiet);
    assert Allowed(acts, k - 1, branch, head, quiet);
    assert Allowed(acts, k - 2, branch, head, quiet);
    gate := k - 4;
    assert Allowed(acts, gate + 1, branch, head, quiet);
    assert Allowed(acts, gate, branch, head, quiet);
    checked := if acts[gate].Reused? then gate - 1 else gate - 2;
    if acts[gate].Gate? {
      assert Allowed(acts, gate - 1, branch, head, quiet);
    }
    forall j | from <= j < |acts|
      ensures checked < j ==> !PreparationAct(acts[j])
      ensures acts[j].Updating? ==> j == k
      ensures acts[j].Gate? ==> j == gate
    {
      Unrepeated(acts, from, branch, head, quiet, checked + 1, j);
      Unrepeated(acts, from, branch, head, quiet, k, j);
      Unrepeated(acts, from, branch, head, quiet, gate, j);
    }
  }

  /** Outside the preparation every act is the only one of its rank, and what comes later has a higher one. */
  lemma Unrepeated(acts: seq<Act>, from: nat, branch: string, head: nat, quiet: bool, j: nat, k: nat)
    requires Chain(acts, from, branch, head, quiet) && from <= j < |acts| && from <= k < |acts| && Rank(acts[j]) > 1
    ensures k > j ==> Rank(acts[k]) > Rank(acts[j])
    ensures k < j ==> Rank(acts[k]) < Rank(acts[j])
  {
    if k > j {
      RanksRise(acts, from, branch, head, quiet, j, k);
    } else if k < j {
      RanksRise(acts, from, branch, head, quiet, k, j);
    }
  }

  // ---------------------------------------------------------------- avoided commits

  /** `reachable_avoided`: a commit this repository does not have counts as unreachable, which is exact
      because a repository has every ancestor of what it has. */
  method ReachableAvoided(world: World, revision: nat, avoided: seq<nat>) returns (found: Step<bool>)
    requires Inv(world.state) && revision in world.state.local
    modifies world
    ensures Inv(world.state) && Silent(old(world.state), world.state)
    ensures world.quiet ==> SameCheckout(old(world.state), world.state)
    ensures found.Good? ==> (found.value <==> !ReachesNone(world.state, avoided, revision))
    ensures found.Refused? ==> found.status == MERGE_ERROR && !world.reliable
    ensures !found.Stopped?
  {
    var reached := false;
    for i := 0 to |avoided|
      invariant Inv(world.state) && Silent(old(world.state), world.state)
      invariant world.quiet ==> SameCheckout(old(world.state), world.state)
      invariant reached <==> !ReachesNone(world.state, avoided[..i], revision)
    {
      ghost var before := world.state;
      var answer :- ReachesAvoided(world, revision, avoided[i]);
      reached := reached || answer;
      ReachesNoneIsStable(before, world.state, avoided[..i], revision);
      ReachesNoneSplits(world.state, avoided, i, revision);
    }
    assert avoided[..|avoided|] == avoided;
    return Good(reached);
  }

  method ReachesAvoided(world: World, revision: nat, commit: nat) returns (found: Step<bool>)
    requires Inv(world.state) && revision in world.state.local
    modifies world
    ensures Inv(world.state) && Silent(old(world.state), world.state)
    ensures world.quiet ==> SameCheckout(old(world.state), world.state)
    ensures found.Good? ==> (found.value <==> Reaches(world.state.store, commit, revision))
    ensures found.Refused? ==> found.status == MERGE_ERROR && !world.reliable
    ensures !found.Stopped?
  {
    var _ :- world.Command();
    if commit !in world.state.local {
      if Reaches(world.state.store, commit, revision) {
        AncestorsAreLocal(world.state.store, world.state.local, commit, revision);
        assert false;
      }
      return Good(false);
    }
    found := world.IsAncestorLocally(commit, revision);
  }

  lemma ReachesNoneSplits(state: State, avoided: seq<nat>, i: nat, commit: nat)
    requires Inv(state) && i < |avoided|
    ensures ReachesNone(state, avoided[..i + 1], commit) <==>
              ReachesNone(state, avoided[..i], commit) && !Reaches(state.store, avoided[i], commit)
  {
    assert avoided[..i + 1][i] == avoided[i];
    assert forall k :: 0 <= k < i ==> avoided[..i + 1][k] == avoided[..i][k];
  }

  /** At moment `i` the target `base` reached no avoided commit. */
  ghost predicate AvoidedAt(state: State, i: nat, base: string, avoided: seq<nat>)
    requires Inv(state)
  {
    i < |state.moments| && base in state.moments[i].refs && ReachesNone(state, avoided, state.moments[i].refs[base])
  }

  /** The `k`th thing heard names `base` as the target of the request. */
  ghost predicate NamesTarget(state: State, k: nat, base: string) {
    k < |state.heard| && state.heard[k].Told? && NamedBase(state.heard[k].answer) == Some(base)
  }

  /** Since the mark, the target that the forge named reached no avoided commit at some moment. */
  ghost predicate TargetAvoided(state: State, since: Mark, avoided: seq<nat>)
    requires Inv(state)
  {
    exists i, k, base ::
        since.moment <= i && since.heard <= k && NamesTarget(state, k, base) && AvoidedAt(state, i, base, avoided)
  }

  lemma TargetStaysAvoided(before: State, after: State, earlier: Mark, since: Mark, avoided: seq<nat>)
    requires Inv(before) && Inv(after) && Evolves(before, after) && Earlier(earlier, since)
              && TargetAvoided(before, since, avoided)
    ensures TargetAvoided(after, earlier, avoided)
  {
    var i, k, base :| since.moment <= i && since.heard <= k && NamesTarget(before, k, base)
        && AvoidedAt(before, i, base, avoided);
    assert RefsExist(before.store, before.moments[i].refs);
    ReachesNoneIsStable(before, after, avoided, before.moments[i].refs[base]);
    assert NamesTarget(after, k, base) && AvoidedAt(after, i, base, avoided);
  }

  /** Some commit that was here reaches an avoided one; while nobody else uses the checkout, it is what `base` held
      at an instant since then. */
  ghost predicate TargetBrings(state: State, from: nat, quiet: bool, base: string, avoided: seq<nat>)
    requires Inv(state)
  {
    exists commit ::
        commit in state.local && !ReachesNone(state, avoided, commit)
            && (quiet ==> BranchSince(state, from, base, commit))
  }

  /** The refusal that one answer and the commits lead to: an unreadable answer raises, one that names no target is
      status 79, and 80 means that the head or the named target reaches an avoided commit. */
  ghost predicate AvoidedSays(state: State, from: nat, quiet: bool, reliable: bool, head: nat, avoided: seq<nat>,
                              exit: Exit)
    requires Inv(state)
  {
    && avoided != [] && state.heard != []
    && match state.heard[|state.heard| - 1]
       case Saw(_, _, _, _) => false
       case Told(answer) =>
         if answer.Unreadable? then exit == Raised
         else if NamedBase(answer).None? then exit == Returned(MERGE_ERROR)
         else
           || (exit == Returned(AVOIDED)
               && ((head in state.local && !ReachesNone(state, avoided, head))
                   || TargetBrings(state, from, quiet, NamedBase(answer).value, avoided)))
           || (exit == Returned(MERGE_ERROR) && (reliable ==> AbsentSince(state, from, NamedBase(answer).value)))
  }

  lemma AvoidedSaysEarlier(state: State, from: nat, later: nat, quiet: bool, reliable: bool, head: nat,
                           avoided: seq<nat>, exit: Exit)
    requires Inv(state) && from <= later && AvoidedSays(state, later, quiet, reliable, head, avoided, exit)
    ensures AvoidedSays(state, from, quiet, reliable, head, avoided, exit)
  {
    var answer := state.heard[|state.heard| - 1].answer;
    if !answer.Unreadable? && NamedBase(answer).Some? {
      var base := NamedBase(answer).value;
      if TargetBrings(state, later, quiet, base, avoided) {
        var commit :| commit in state.local && !ReachesNone(state, avoided, commit)
            && (quiet ==> BranchSince(state, later, base, commit));
        if quiet {
          BranchEarlier(state, from, later, base, commit);
        }
        assert TargetBrings(state, from, quiet, base, avoided);
      }
      if AbsentSince(state, later, base) {
        var i :| later <= i && AbsentAt(state, i, base);
        assert AbsentSince(state, from, base);
      }
    }
  }

  /** `_avoided_refusal` for one head: the head and the target as it is now must reach no avoided commit. */
  method AvoidedRefusal(world: World, head: nat, avoided: seq<nat>) returns (refusal: Option<Exit>)
    requires Inv(world.state)
    modifies world
    ensures Inv(world.state) && Reads(old(world.state), world.state)
    ensures world.quiet ==> SameCheckout(old(world.state), world.state)
    ensures refusal.None? && head in old(world.state).local ==> ReachesNone(world.state, avoided, head)
    ensures refusal.None? && world.quiet ==> TargetAvoided(world.state, Here(old(world.state)), avoided)
    ensures refusal.Some? ==>
              avoided == []
              || AvoidedSays(world.state, |old(world.state).moments| - 1, world.quiet, world.reliable, head, avoided,
                             refusal.value)
  {
    var answer := world.Metadata();
    if answer.Unreadable? {
      return Some(Raised);
    }
    var named := NamedBase(answer);
    if named.None? {
      return Some(Returned(MERGE_ERROR));
    }
    ghost var told := |world.state.heard| - 1;
    refusal := CheckTarget(world, head, avoided, named.value);
    if refusal.None? && world.quiet {
      ghost var i :| |old(world.state).moments| - 1 <= i && AvoidedAt(world.state, i, named.value, avoided);
      assert NamesTarget(world.state, told, named.value);
    }
  }

  /** Fetch the target, and look for avoided commits in the head and in what was fetched. */
  method CheckTarget(world: World, head: nat, avoided: seq<nat>, base: string) returns (refusal: Option<Exit>)
    requires Inv(world.state)
    modifies world
    ensures Inv(world.state) && Silent(old(world.state), world.state)
    ensures world.quiet ==> SameCheckout(old(world.state), world.state)
    ensures refusal.None? && head in old(world.state).local ==> ReachesNone(world.state, avoided, head)
    ensures refusal.None? && world.quiet ==>
              exists i :: |old(world.state).moments| - 1 <= i && AvoidedAt(world.state, i, base, avoided)
    ensures refusal == Some(Returned(AVOIDED)) ==>
              (head in world.state.local && !ReachesNone(world.state, avoided, head))
              || TargetBrings(world.state, |old(world.state).moments| - 1, world.quiet, base, avoided)
    ensures refusal == Some(Returned(MERGE_ERROR)) && world.reliable ==>
              AbsentSince(world.state, |old(world.state).moments| - 1, base)
    ensures refusal.Some? ==> refusal.value == Returned(AVOIDED) || refusal.value == Returned(MERGE_ERROR)
  {
    var target := world.FetchHead(base);
    if !target.Good? {
      assert base !in world.state.refs ==> AbsentAt(world.state, |world.state.moments| - 1, base);
      return Some(Returned(MERGE_ERROR));
    }
    ghost var fetched := world.state;
    if head in world.state.local {
      var inHead := ReachableAvoided(world, head, avoided);
      if inHead != Good(false) {
        return Some(Returned(if inHead.Good? then AVOIDED else MERGE_ERROR));
      }
    }
    ghost var checked := world.state;
    var inTarget := ReachableAvoided(world, target.value, avoided);
    if inTarget != Good(false) {
      assert world.quiet ==> BranchAt(world.state, |fetched.moments| - 1, base, target.value);
      return Some(Returned(if inTarget.Good? then AVOIDED else MERGE_ERROR));
    }
    if world.quiet {
      assert AvoidedAt(world.state, |fetched.moments| - 1, base, avoided);
    }
    if head in fetched.local {
      ReachesNoneIsStable(checked, world.state, avoided, head);
    }
    return None;
  }

  ghost predicate ReachesOnlyItself(state: State, avoided: seq<nat>, commit: nat)
    requires Inv(state)
  {
    forall k :: 0 <= k < |avoided| ==> (Reaches(state.store, avoided[k], commit) <==> avoided[k] == commit)
  }

  /** Of the avoided commits a published target reaches none, unless the candidate is one itself. That
      holds however the target moved after the last check, because what a landing replaces is in the
      checked head. */
  lemma LandedTargetAvoids(state: State, since: nat, attempt: Attempt, branch: string, head: nat, avoided: seq<nat>)
    requires Inv(state) && AttemptOk(state, since, attempt, branch, head) && ReachesNone(state, avoided, head)
    ensures ReachesOnlyItself(state, avoided, attempt.candidate)
  {
    forall k | 0 <= k < |avoided|
      ensures Reaches(state.store, avoided[k], attempt.candidate) <==> avoided[k] == attempt.candidate
    {
      MergeReaches(state.store, attempt.candidate, attempt.target, head, avoided[k]);
      if Reaches(state.store, avoided[k], attempt.target) {
        ReachesIsTransitive(state.store, avoided[k], attempt.target, head);
      }
    }
  }

  /** The exception is real: when the forge makes the very merge commit that was removed and avoided, every
      check passes and the avoided commit is the new target. */
  lemma AvoidedCandidateLands()
    ensures exists store, before, after: Moment, avoided ::
              && WellFormed(store) && after.cause == Landed("main", "topic", 1) && LandedOk(store, before, after)
              && !Reaches(store, avoided, before["main"]) && !Reaches(store, avoided, 1)
              && Reaches(store, avoided, after.refs["main"])
  {
    var store := [Commit(0, []), Commit(1, [0]), Commit(1, [0, 1])];
    var before := map["main" := 0, "topic" := 1];
    var after := Moment(map["main" := 2, "topic" := 1], Landed("main", "topic", 1));
    assert Reaches(store, 0, store[1].parents[0]);
    assert "main" != "topic" by { assert |"main"| != |"topic"|; }
    assert LandedOk(store, before, after);
    assert !Reaches(store, 2, 0);
    assert !Reaches(store, 2, 1);
    assert Reaches(store, 2, after.refs["main"]);
  }

  // ---------------------------------------------------------------- execute

  /** The avoided commits are checked only when there are any. */
  method CheckAvoidedHead(world: World, head: nat, avoided: seq<nat>) returns (refusal: Option<Exit>)
    requires Inv(world.state)
    modifies world
    ensures Inv(world.state) && Reads(old(world.state), world.state)
    ensures world.quiet ==> SameCheckout(old(world.state), world.state)
    ensures refusal.None? && head in old(world.state).local ==> ReachesNone(world.state, avoided, head)
    ensures refusal.None? && avoided != [] && world.quiet ==>
              TargetAvoided(world.state, Here(old(world.state)), avoided)
    ensures refusal.Some? ==>
              AvoidedSays(world.state, |old(world.state).moments| - 1, world.quiet, world.reliable, head, avoided,
                          refusal.value)
  {
    refusal := None;
    if avoided != [] {
      refusal := AvoidedRefusal(world, head, avoided);
    }
  }

  /** The last thing done. */
  function Last(acts: seq<Act>): Act
    requires acts != []
  {
    acts[|acts| - 1]
  }

  /** The chain so far, in which no gate ended red. */
  ghost predicate GreenChain(acts: seq<Act>, from: nat, branch: string, head: nat, quiet: bool) {
    from < |acts| && Chain(acts, from, branch, head, quiet) && NoRedGate(acts, from)
  }

  lemma GreenChainGrows(acts: seq<Act>, from: nat, branch: string, head: nat, quiet: bool, act: Act)
    requires GreenChain(acts, from, branch, head, quiet) && Follows(Last(acts), act, branch, head, quiet)
    ensures Chain(acts + [act], from, branch, head, quiet)
    ensures act.Gate? ==> RedIsTheExit(acts + [act], from, Returned(act.status))
    ensures !act.Gate? || act.status == 0 ==> GreenChain(acts + [act], from, branch, head, quiet)
  {
    ChainGrows(acts, from, branch, head, quiet, act);
  }

  lemma ChainGrows(acts: seq<Act>, from: nat, branch: string, head: nat, quiet: bool, act: Act)
    requires Chain(acts, from, branch, head, quiet) && from < |acts| && Follows(Last(acts), act, branch, head, quiet)
    ensures Chain(acts + [act], from, branch, head, quiet)
  {
    var more := acts + [act];
    forall k | from < k < |more|
      ensures Allowed(more, k, branch, head, quiet)
    {
      if k < |acts| {
        assert Allowed(acts, k, branch, head, quiet);
      }
    }
  }

  /** Everything a preparation does is a preparation act, and may follow the one before. */
  lemma {:induction false} FittingPrepares(acts: seq<Act>, from: nat, branch: string, submitted: nat, k: nat)
    requires from <= k < |acts| && AllFit(acts, from, branch, submitted)
    ensures PreparationAct(acts[k]) && (acts[k].Pushing? ==> acts[k].branch == branch)
    ensures if k == from then acts[k].Checking? else Continues(acts[k - 1], acts[k])
  {
    if k < |acts| - 1 {
      FittingPrepares(acts[..|acts| - 1], from, branch, submitted, k);
    }
  }

  /** A reported preflight phase and a preparation are the beginning of a landing. */
  lemma PreparationChains(acts: seq<Act>, from: nat, submitted: nat, branch: string, head: nat, quiet: bool)
    requires from < |acts| && acts[from] == Reported(PreflightPhase) && AllFit(acts, from + 1, branch, submitted)
    ensures Chain(acts, from, branch, head, quiet)
    ensures forall k :: from < k < |acts| ==> PreparationAct(acts[k])
  {
    forall k | from < k < |acts|
      ensures PreparationAct(acts[k]) && Allowed(acts, k, branch, head, quiet)
    {
      FittingPrepares(acts, from + 1, branch, submitted, k);
    }
  }

  /** What `execute` does of a publication continues a landing that reported its publishing phase. */
  lemma PublicationChains(before: State, after: State, from: nat, branch: string, head: nat, quiet: bool,
                          attempt: Option<Attempt>)
    requires Chain(before.acts, from, branch, head, quiet) && from < |before.acts|
              && Last(before.acts) == Reported(PublishingPhase)
    requires Executed(before, after, false, head, None, branch, attempt)
    ensures Chain(after.acts, from, branch, head, quiet)
    ensures TriedLast(after.acts, |before.acts|, attempt, branch, head)
    ensures forall k :: |before.acts| <= k < |after.acts| ==>
              !after.acts[k].Gate? && !after.acts[k].Reused? && !RecordedOrPushed(after.acts[k])
  {
    var began := before.acts + [Checking(false, head, None)];
    ChainGrows(before.acts, from, branch, head, quiet, Checking(false, head, None));
    if |after.acts| > |began| {
      var created := began + [after.acts[|began|]];
      ChainGrows(began, from, branch, head, quiet, after.acts[|began|]);
      if attempt.Some? {
        ChainGrows(created, from, branch, head, quiet, UpdateOf(attempt.value, branch, head));
        assert after.acts == created + [UpdateOf(attempt.value, branch, head)];
      } else {
        assert after.acts == created;
      }
    } else {
      assert after.acts == began;
    }
  }

  /** No gate ended red. */
  ghost predicate NoRedGate(acts: seq<Act>, from: nat) {
    forall k :: from <= k < |acts| && acts[k].Gate? ==> acts[k].status == 0
  }

  /** A red gate is the exit status. */
  ghost predicate RedIsTheExit(acts: seq<Act>, from: nat, exit: Exit) {
    forall k :: from <= k < |acts| && acts[k].Gate? && acts[k].status != 0 ==>
        exit == Raised || exit == Returned(acts[k].status)
  }

  /** The durable step to publishing was made. */
  ghost predicate ReportedPublishing(acts: seq<Act>, from: nat) {
    exists k :: from <= k < |acts| && acts[k] == Reported(PublishingPhase)
  }

  predicate RecordedOrPushed(act: Act) {
    act.Recorded? || act.Pushing?
  }

  /** An attempt is the last thing done, and no other update was tried. */
  ghost predicate TriedLast(acts: seq<Act>, from: nat, attempt: Option<Attempt>, branch: string, head: nat) {
    && (attempt.Some? ==> |acts| > from && Last(acts) == UpdateOf(attempt.value, branch, head))
    && forall k :: from <= k < |acts| && acts[k].Updating? ==> attempt.Some? && k == |acts| - 1
  }

  /** Of the refs this caller moved only the request branch, by synchronizations, and last the target. */
  ghost predicate MovedRefs(start: State, now: State, branch: string, attempt: Option<Attempt>) {
    var n := |now.mine| - |Applied(attempt)|;
    && |start.mine| <= n && now.mine[n..] == Applied(attempt)
    && forall j :: |start.mine| <= j < n ==>
                     now.mine[j] < |now.moments| && now.moments[now.mine[j]].cause.Pushed?
                         && now.moments[now.mine[j]].cause.branch == branch
  }

  /** Nothing was merged, pushed, recorded or published. */
  ghost predicate OnlyGates(acts: seq<Act>, from: nat) {
    forall k :: from <= k < |acts| ==> acts[k].Reused? || acts[k].Gate? || acts[k].Reported?
  }

  /** How a landing may end before its gate passed, by the last thing done: a red gate that was reported is the exit
      status, and otherwise a callback failed. */
  ghost predicate GateSays(before: seq<Act>, acts: seq<Act>, reliable: bool, exit: Exit) {
    if |acts| > |before| && Last(acts) != Reported(GatingPhase) then
      match Last(acts)
      case Reported(GateFailedPhase(status)) => exit == Returned(status)
      case Gate(_, _, status) => status != 0 && exit == Raised && !reliable
      case _ => false
    else
      acts == before && exit == Raised && !reliable
  }

  /** A preparation that ended with status 75, although it may synchronize, checked as often as it may, or its last
      synchronization was refused so. */
  ghost predicate StaleAtTheEnd(acts: seq<Act>, from: nat, synchronize: bool, exit: Exit)
    requires from <= |acts|
  {
    var ledger := LedgerSince(acts, from);
    synchronize && exit == Returned(STALE_MAIN) ==>
      ledger.checks == MAX_PREFLIGHTS || ledger.synchronizations == ledger.checks
  }

  /** A receipt stands for the gate exactly when it covers the head and may be reused. */
  ghost predicate GatedAs(acts: seq<Act>, from: nat, covered: bool) {
    forall k :: from <= k < |acts| ==> (acts[k].Reused? ==> covered) && (acts[k].Gate? ==> !covered)
  }

  /** Run the gate on the prepared head, or reuse the receipt that covers it. */
  method GateHead(world: World, branch: string, head: nat, reusing: bool, ghost from: nat)
    returns (outcome: Option<Exit>)
    requires Inv(world.state) && GreenChain(world.state.acts, from, branch, head, world.quiet)
    requires Last(world.state.acts).Checking? && Last(world.state.acts).observeOnly
              && Last(world.state.acts).head == head
    requires world.quiet ==> world.state.head == head && world.state.clean
    modifies world
    ensures Inv(world.state) && Evolves(old(world.state), world.state) && world.state.mine == old(world.state).mine
    ensures Chain(world.state.acts, from, branch, head, world.quiet)
              && OnlyGates(world.state.acts, |old(world.state).acts|)
    ensures outcome.None? ==> NoRedGate(world.state.acts, from) && GreenGate(Last(world.state.acts), head, world.quiet)
    ensures outcome.Some? ==> outcome.value != Returned(0) && RedIsTheExit(world.state.acts, from, outcome.value)
    ensures outcome.Some? ==> GateSays(old(world.state).acts, world.state.acts, world.reliable, outcome.value)
    // A receipt is asked for when it may be reused, and then stands for the gate.
    ensures GatedAs(world.state.acts, |old(world.state).acts|, reusing && head in world.receipts)
  {
    ghost var ready := world.state.acts;
    if reusing {
      var covered := world.ReuseGate(head);
      if covered.None? {
        return Some(Raised);
      }
      if covered.value {
        GreenChainGrows(ready, from, branch, head, world.quiet, Reused(head));
        return None;
      }
    }
    outcome := RunAndReport(world, branch, head, from);
  }

  /** The reported gating phase, and the gate in it. */
  method RunAndReport(world: World, branch: string, head: nat, ghost from: nat) returns (outcome: Option<Exit>)
    requires Inv(world.state) && GreenChain(world.state.acts, from, branch, head, world.quiet)
    requires Last(world.state.acts).Checking? && Last(world.state.acts).observeOnly
              && Last(world.state.acts).head == head
    requires world.quiet ==> world.state.head == head && world.state.clean
    modifies world
    ensures Inv(world.state) && Evolves(old(world.state), world.state) && world.state.mine == old(world.state).mine
    ensures Chain(world.state.acts, from, branch, head, world.quiet)
              && OnlyGates(world.state.acts, |old(world.state).acts|)
    ensures outcome.None? ==> NoRedGate(world.state.acts, from) && GreenGate(Last(world.state.acts), head, world.quiet)
    ensures outcome.Some? ==> outcome.value != Returned(0) && RedIsTheExit(world.state.acts, from, outcome.value)
    ensures outcome.Some? ==> GateSays(old(world.state).acts, world.state.acts, world.reliable, outcome.value)
    ensures GatedAs(world.state.acts, |old(world.state).acts|, false)
  {
    ghost var ready := world.state.acts;
    var accepted := world.Report(GatingPhase);
    if !accepted {
      return Some(Raised);
    }
    GreenChainGrows(ready, from, branch, head, world.quiet, Reported(GatingPhase));
    outcome := GateNow(world, branch, head, from);
  }

  /** The gate command itself, and the report of a red gate. */
  method GateNow(world: World, branch: string, head: nat, ghost from: nat) returns (outcome: Option<Exit>)
    requires Inv(world.state) && GreenChain(world.state.acts, from, branch, head, world.quiet)
    requires Last(world.state.acts) == Reported(GatingPhase)
    requires world.quiet ==> world.state.head == head && world.state.clean
    modifies world
    ensures Inv(world.state) && Evolves(old(world.state), world.state) && world.state.mine == old(world.state).mine
    ensures Chain(world.state.acts, from, branch, head, world.quiet)
              && OnlyGates(world.state.acts, |old(world.state).acts|)
    ensures outcome.None? ==> NoRedGate(world.state.acts, from) && GreenGate(Last(world.state.acts), head, world.quiet)
    ensures outcome.Some? ==> outcome.value != Returned(0) && RedIsTheExit(world.state.acts, from, outcome.value)
    ensures outcome.Some? ==>
              |world.state.acts| > |old(world.state).acts|
              && GateSays(old(world.state).acts, world.state.acts, world.reliable, outcome.value)
    ensures GatedAs(world.state.acts, |old(world.state).acts|, false)
  {
    ghost var gating := world.state.acts;
    var status := world.RunGate();
    ghost var gated := world.state.acts;
    GreenChainGrows(gating, from, branch, head, world.quiet, Last(gated));
    if status == 0 {
      return None;
    }
    var accepted := world.Report(GateFailedPhase(status));
    if !accepted {
      return Some(Raised);
    }
    ChainGrows(gated, from, branch, head, world.quiet, Reported(GateFailedPhase(status)));
    return Some(Returned(status));
  }

  ghost function StepOf(exit: Exit): Step<()> {
    match exit
    case Raised => Stopped
    case Returned(status) => if status == 0 then Good(()) else Refused(status)
  }

  /** The checks of the publication, which began right after this caller's other acts, decide. */
  ghost predicate ChecksSay(now: State, quiet: bool, reliable: bool, number: int, branch: string, head: nat,
                            exit: Exit)
    requires Inv(now)
  {
    exists before ::
      && Evolves(before, now) && now.acts == before.acts + [Checking(false, head, None)]
      && FoundOut(before, now, quiet, reliable, number, branch, head, None, false, StepOf(exit))
  }

  /** The last round of the preparation decides. */
  ghost predicate PreparationSays(now: State, quiet: bool, reliable: bool, number: int, branch: string, exit: Exit) {
    exists turns, synchronizations ::
      LastDecides(now, quiet, reliable, number, branch, turns, synchronizations, StepOf(exit))
  }

  /** The exit of a landing, by the last thing it did: the avoided commits decide before the preparation and after a
      green gate, the last round while it prepares, a red gate, and of the publication its checks, the forge, or what
      became of its update. Otherwise a callback or a command failed. */
  ghost predicate EndSays(now: State, since: nat, quiet: bool, reliable: bool, number: int, branch: string,
                          submitted: nat, head: nat, avoided: seq<nat>, exit: Exit, attempt: Option<Attempt>)
    requires Inv(now) && now.acts != []
  {
    match Last(now.acts)
    case Reported(PreflightPhase) => AvoidedSays(now, since, quiet, reliable, submitted, avoided, exit)
    case Reported(GateFailedPhase(status)) => exit == Returned(status)
    case Reported(_) => false
    case Reused(_) =>
      (exit == Raised && !reliable) || AvoidedSays(now, since, quiet, reliable, head, avoided, exit)
    case Gate(_, _, status) =>
      || (exit == Raised && !reliable)
      || (status == 0 && AvoidedSays(now, since, quiet, reliable, head, avoided, exit))
    case Checking(observeOnly, _, _) =>
      if observeOnly then
        (exit == Raised && !reliable) || PreparationSays(now, quiet, reliable, number, branch, exit)
      else
        || (exit == Returned(MERGE_ERROR) && !reliable)
        || ChecksSay(now, quiet, reliable, number, branch, head, exit)
    case Creating(_, _) => exit == Returned(PUBLISH_FAILED) || exit == Returned(MERGE_ERROR)
    case Updating(_, _, _, _, _, _, _) =>
      attempt.Some? && Concluded(now, attempt.value, branch, head, StepOf(exit))
    case _ => PreparationSays(now, quiet, reliable, number, branch, exit)
  }

  /** What the part of a landing after the preparation promises about its attempt and its status. */
  ghost predicate Finished(start: State, now: State, quiet: bool, branch: string, head: nat, avoided: seq<nat>,
                           exit: Exit,
                           attempt: Option<Attempt>)
    requires Inv(start) && Inv(now)
  {
    // Whatever took effect is one landing of exactly the gated head onto a target that the forge named for it.
    && (attempt.Some? ==> AttemptOk(now, |start.moments| - 1, attempt.value, branch, head))
    && (attempt.Some? ==> NamedSince(now, Here(start), attempt.value.base, branch, head))
    && (attempt.Some? ==> (exit == Returned(0) <==> Confirmed(attempt.value)))
    // Status 0: at some instant of the call the target that the forge named held the gated head.
    && (exit == Returned(0) ==> HeldSince(now, Here(start), branch, head))
    // The new target reaches an avoided commit exactly when the candidate is one.
    && (attempt.Some? ==> ReachesOnlyItself(now, avoided, attempt.value.candidate))
    && ((attempt.Some? || exit == Returned(0)) && avoided != [] && quiet ==> TargetAvoided(now, Here(start), avoided))
  }

  lemma FinishedEarlier(start: State, later: State, now: State, quiet: bool, branch: string, head: nat,
                        avoided: seq<nat>, exit: Exit,
                        attempt: Option<Attempt>)
    requires Inv(start) && Inv(later) && Inv(now) && Evolves(start, later) && Evolves(later, now)
    requires Finished(later, now, quiet, branch, head, avoided, exit, attempt)
    ensures Finished(start, now, quiet, branch, head, avoided, exit, attempt)
  {
    if attempt.Some? {
      AttemptEarlier(now, |start.moments| - 1, |later.moments| - 1, attempt.value, branch, head);
    }
    if exit == Returned(0) {
      HeldEarlier(now, Here(start), Here(later), branch, head);
    }
    if TargetAvoided(now, Here(later), avoided) {
      TargetStaysAvoided(now, now, Here(start), Here(later), avoided);
    }
  }

  /** The second check for avoided commits, the durable step to publishing, and the publication. */
  method Publish(world: World, number: int, branch: string, ghost submitted: nat, ghost since: nat, head: nat,
                 avoided: seq<nat>,
                 ghost from: nat)
    returns (exit: Exit, ghost attempt: Option<Attempt>)
    requires Inv(world.state) && head in world.state.local && from < |world.state.acts|
    requires since < |world.state.moments|
    requires Chain(world.state.acts, from, branch, head, world.quiet)
              && GreenGate(Last(world.state.acts), head, world.quiet)
    modifies world
    ensures Inv(world.state) && Evolves(old(world.state), world.state)
              && world.state.mine == old(world.state).mine + Applied(attempt)
    ensures Chain(world.state.acts, from, branch, head, world.quiet)
    ensures TriedLast(world.state.acts, |old(world.state).acts|, attempt, branch, head)
    ensures forall k :: |old(world.state).acts| <= k < |world.state.acts| ==>
              !world.state.acts[k].Gate? && !world.state.acts[k].Reused? && !RecordedOrPushed(world.state.acts[k])
    ensures attempt.Some? || exit == Returned(0) ==>
              |world.state.acts| > |old(world.state).acts|
                  && world.state.acts[|old(world.state).acts|] == Reported(PublishingPhase)
    ensures Finished(old(world.state), world.state, world.quiet, branch, head, avoided, exit, attempt)
    ensures EndSays(world.state, since, world.quiet, world.reliable, number, branch, submitted, head, avoided, exit,
                    attempt)
  {
    attempt := None;
    ghost var gated := world.state;
    var refusal := CheckAvoidedHead(world, head, avoided);
    if refusal.Some? {
      exit := refusal.value;
      AvoidedSaysEarlier(world.state, since, |gated.moments| - 1, world.quiet, world.reliable, head, avoided, exit);
    } else {
      exit, attempt := ReportAndPublish(world, number, branch, submitted, since, head, avoided, from, gated);
    }
  }

  /** The durable step to publishing, and the publication. */
  method ReportAndPublish(world: World, number: int, branch: string, ghost submitted: nat, ghost since: nat, head: nat,
                          ghost avoided: seq<nat>,
                          ghost from: nat, ghost gated: State)
    returns (exit: Exit, ghost attempt: Option<Attempt>)
    requires Inv(world.state) && head in world.state.local && from < |world.state.acts|
    requires Chain(world.state.acts, from, branch, head, world.quiet)
              && GreenGate(Last(world.state.acts), head, world.quiet)
    requires Inv(gated) && Reads(gated, world.state) && ReachesNone(world.state, avoided, head)
    requires avoided != [] && world.quiet ==> TargetAvoided(world.state, Here(gated), avoided)
    modifies world
    ensures Inv(world.state) && Evolves(old(world.state), world.state)
              && world.state.mine == old(world.state).mine + Applied(attempt)
    ensures Chain(world.state.acts, from, branch, head, world.quiet)
    ensures TriedLast(world.state.acts, |old(world.state).acts|, attempt, branch, head)
    ensures forall k :: |old(world.state).acts| <= k < |world.state.acts| ==>
              !world.state.acts[k].Gate? && !world.state.acts[k].Reused? && !RecordedOrPushed(world.state.acts[k])
    ensures attempt.Some? || exit == Returned(0) ==>
              |world.state.acts| > |old(world.state).acts|
                  && world.state.acts[|old(world.state).acts|] == Reported(PublishingPhase)
    ensures Finished(gated, world.state, world.quiet, branch, head, avoided, exit, attempt)
    ensures EndSays(world.state, since, world.quiet, world.reliable, number, branch, submitted, head, avoided, exit,
                    attempt)
  {
    attempt := None;
    ghost var checked := world.state;
    var accepted := world.Report(PublishingPhase);
    if !accepted {
      exit := Raised;
    } else {
      ChainGrows(checked.acts, from, branch, head, world.quiet, Reported(PublishingPhase));
      exit, attempt := PublishNow(world, number, branch, submitted, since, head, avoided, from, gated, checked);
      if avoided != [] && world.quiet {
        TargetStaysAvoided(checked, world.state, Here(gated), Here(gated), avoided);
      }
    }
  }

  lemma AttemptAvoids(checked: State, now: State, since: nat, later: nat, attempt: Attempt, branch: string, head: nat,
                      avoided: seq<nat>)
    requires Inv(checked) && Inv(now) && Evolves(checked, now) && since <= later
              && AttemptOk(now, later, attempt, branch, head)
    requires head in checked.local && ReachesNone(checked, avoided, head)
    ensures AttemptOk(now, since, attempt, branch, head) && ReachesOnlyItself(now, avoided, attempt.candidate)
  {
    AttemptEarlier(now, since, later, attempt, branch, head);
    ReachesNoneIsStable(checked, now, avoided, head);
    LandedTargetAvoids(now, since, attempt, branch, head, avoided);
  }

  /** What the publishing call achieved since it began, it achieved since the gate; it lands what avoids the removed
      commits. */
  lemma PublishedSince(gated: State, checked: State, before: State, now: State, branch: string, head: nat,
                       avoided: seq<nat>, landed: bool, attempt: Option<Attempt>)
    requires Inv(gated) && Inv(checked) && Inv(before) && Inv(now)
    requires Evolves(gated, checked) && Evolves(checked, before) && Evolves(before, now)
    requires head in checked.local && ReachesNone(checked, avoided, head)
    requires attempt.Some? ==>
               AttemptOk(now, |before.moments| - 1, attempt.value, branch, head)
               && NamedSince(now, Here(before), attempt.value.base, branch, head)
    requires landed ==> HeldSince(now, Here(before), branch, head)
    ensures attempt.Some? ==>
              AttemptOk(now, |gated.moments| - 1, attempt.value, branch, head)
              && NamedSince(now, Here(gated), attempt.value.base, branch, head)
              && ReachesOnlyItself(now, avoided, attempt.value.candidate)
    ensures landed ==> HeldSince(now, Here(gated), branch, head)
  {
    if attempt.Some? {
      AttemptAvoids(checked, now, |gated.moments| - 1, |before.moments| - 1, attempt.value, branch, head, avoided);
    }
    if landed {
      HeldEarlier(now, Here(gated), Here(before), branch, head);
    }
  }

  /** What `execute` did and said of a publication gives the exit. */
  lemma PublicationEnds(before: State, now: State, since: nat, quiet: bool, reliable: bool, number: int, branch: string,
                        submitted: nat, head: nat, avoided: seq<nat>, done: Step<()>, exit: Exit,
                        attempt: Option<Attempt>)
    requires Inv(now) && Executed(before, now, false, head, None, branch, attempt)
    requires !done.Stopped? && exit == Returned(if done.Good? then 0 else done.status) && done != Refused(0)
    requires attempt.Some? ==> Concluded(now, attempt.value, branch, head, done)
    requires |now.acts| == |before.acts| + 1 ==>
               (done == Refused(MERGE_ERROR) && !reliable)
               || FoundOut(before, now, quiet, reliable, number, branch, head, None, false, done)
    requires |now.acts| == |before.acts| + 2 ==> done == Refused(PUBLISH_FAILED) || done == Refused(MERGE_ERROR)
    ensures EndSays(now, since, quiet, reliable, number, branch, submitted, head, avoided, exit, attempt)
  {
    assert done.Good? ==> done.value == ();
    assert StepOf(exit) == done;
    if attempt.Some? {
      assert Last(now.acts) == UpdateOf(attempt.value, branch, head);
    }
  }

  /** The publication after its durable step. */
  method PublishNow(world: World, number: int, branch: string, ghost submitted: nat, ghost since: nat, head: nat,
                    ghost avoided: seq<nat>, ghost from: nat,
                    ghost gated: State,
                    ghost checked: State)
    returns (exit: Exit, ghost attempt: Option<Attempt>)
    requires Inv(world.state) && from < |world.state.acts| && Last(world.state.acts) == Reported(PublishingPhase)
    requires Chain(world.state.acts, from, branch, head, world.quiet)
    requires Inv(gated) && Inv(checked) && Evolves(gated, checked) && Evolves(checked, world.state)
    requires head in checked.local && ReachesNone(checked, avoided, head)
    modifies world
    ensures Inv(world.state) && Evolves(old(world.state), world.state)
              && world.state.mine == old(world.state).mine + Applied(attempt)
    ensures Chain(world.state.acts, from, branch, head, world.quiet)
    ensures TriedLast(world.state.acts, |old(world.state).acts|, attempt, branch, head)
    ensures forall k :: |old(world.state).acts| <= k < |world.state.acts| ==>
              !world.state.acts[k].Gate? && !world.state.acts[k].Reused? && !RecordedOrPushed(world.state.acts[k])
    ensures attempt.Some? ==> AttemptOk(world.state, |gated.moments| - 1, attempt.value, branch, head)
    ensures attempt.Some? ==> NamedSince(world.state, Here(gated), attempt.value.base, branch, head)
    ensures attempt.Some? ==> (exit == Returned(0) <==> Confirmed(attempt.value))
    ensures attempt.Some? ==> ReachesOnlyItself(world.state, avoided, attempt.value.candidate)
    ensures exit == Returned(0) ==> HeldSince(world.state, Here(gated), branch, head)
    ensures EndSays(world.state, since, world.quiet, world.reliable, number, branch, submitted, head, avoided, exit,
                    attempt)
  {
    ghost var before := world.state;
    var done: Step<()>;
    done, attempt := Execute(world, false, number, branch, head, None);
    PublicationChains(before, world.state, from, branch, head, world.quiet, attempt);
    PublishedSince(gated, checked, before, world.state, branch, head, avoided, done.Good?, attempt);
    exit := Returned(if done.Good? then 0 else done.status);
    PublicationEnds(before, world.state, since, world.quiet, world.reliable, number, branch, submitted, head, avoided,
                    done, exit,
                    attempt);
  }

  /** Everything from the gate on. */
  method GateAndPublish(world: World, number: int, branch: string, ghost submitted: nat, ghost since: nat, head: nat,
                        avoided: seq<nat>,
                        reusing: bool, ghost from: nat)
    returns (exit: Exit, ghost attempt: Option<Attempt>)
    requires Inv(world.state) && head in world.state.local && since < |world.state.moments|
              && GreenChain(world.state.acts, from, branch, head, world.quiet)
    requires Last(world.state.acts).Checking? && Last(world.state.acts).observeOnly
              && Last(world.state.acts).head == head
    requires world.quiet ==> world.state.head == head && world.state.clean
    modifies world
    ensures Inv(world.state) && Evolves(old(world.state), world.state)
              && world.state.mine == old(world.state).mine + Applied(attempt)
    ensures Chain(world.state.acts, from, branch, head, world.quiet)
    ensures TriedLast(world.state.acts, |old(world.state).acts|, attempt, branch, head)
    ensures forall k :: |old(world.state).acts| <= k < |world.state.acts| ==> !RecordedOrPushed(world.state.acts[k])
    ensures exit == Returned(0) ==> ReportedPublishing(world.state.acts, from)
    ensures RedIsTheExit(world.state.acts, from, exit)
    ensures GatedAs(world.state.acts, |old(world.state).acts|, reusing && head in world.receipts)
    ensures Rank(Last(world.state.acts)) == 1 ==> exit == Raised
    ensures Finished(old(world.state), world.state, world.quiet, branch, head, avoided, exit, attempt)
    ensures EndSays(world.state, since, world.quiet, world.reliable, number, branch, submitted, head, avoided, exit,
                    attempt)
  {
    ghost var ready := world.state;
    attempt := None;
    var refusal := GateHead(world, branch, head, reusing, from);
    if refusal.Some? {
      exit := refusal.value;
    } else {
      exit, attempt := PublishGated(world, number, branch, submitted, since, head, avoided, from, ready,
                                    reusing && head in world.receipts);
    }
  }

  /** Publish a head with a green gate, and say it of everything since the head was ready. */
  method PublishGated(world: World, number: int, branch: string, ghost submitted: nat, ghost since: nat, head: nat,
                      avoided: seq<nat>, ghost from: nat, ghost ready: State, ghost covered: bool)
    returns (exit: Exit, ghost attempt: Option<Attempt>)
    requires Inv(world.state) && head in world.state.local && since < |world.state.moments|
    requires from < |world.state.acts| && Chain(world.state.acts, from, branch, head, world.quiet)
    requires NoRedGate(world.state.acts, from) && GreenGate(Last(world.state.acts), head, world.quiet)
    requires Inv(ready) && Evolves(ready, world.state) && world.state.mine == ready.mine
    requires OnlyGates(world.state.acts, |ready.acts|) && GatedAs(world.state.acts, |ready.acts|, covered)
    modifies world
    ensures Inv(world.state) && Evolves(ready, world.state) && world.state.mine == ready.mine + Applied(attempt)
    ensures Chain(world.state.acts, from, branch, head, world.quiet)
    ensures TriedLast(world.state.acts, |ready.acts|, attempt, branch, head)
    ensures forall k :: |ready.acts| <= k < |world.state.acts| ==> !RecordedOrPushed(world.state.acts[k])
    ensures exit == Returned(0) ==> ReportedPublishing(world.state.acts, from)
    ensures NoRedGate(world.state.acts, from)
    ensures GatedAs(world.state.acts, |ready.acts|, covered)
    ensures |world.state.acts| > from && Rank(Last(world.state.acts)) > 1
    ensures Finished(ready, world.state, world.quiet, branch, head, avoided, exit, attempt)
    ensures EndSays(world.state, since, world.quiet, world.reliable, number, branch, submitted, head, avoided, exit,
                    attempt)
  {
    ghost var gated := world.state;
    exit, attempt := Publish(world, number, branch, submitted, since, head, avoided, from);
    FinishedEarlier(ready, gated, world.state, world.quiet, branch, head, avoided, exit, attempt);
    GatedIsLate(gated.acts, world.state.acts, from, branch, head, world.quiet);
    GatedFirst(ready.acts, gated.acts, world.state.acts, from, covered, attempt, branch, head);
  }

  /** What was gated before the publication, which gates nothing, stays so. */
  lemma GatedFirst(ready: seq<Act>, gated: seq<Act>, acts: seq<Act>, from: nat, covered: bool,
                   attempt: Option<Attempt>, branch: string, head: nat)
    requires ready <= gated <= acts && OnlyGates(gated, |ready|) && GatedAs(gated, |ready|, covered)
    requires NoRedGate(gated, from) && TriedLast(acts, |gated|, attempt, branch, head)
    requires forall k :: |gated| <= k < |acts| ==>
               !acts[k].Gate? && !acts[k].Reused? && !RecordedOrPushed(acts[k])
    ensures NoRedGate(acts, from) && GatedAs(acts, |ready|, covered)
    ensures TriedLast(acts, |ready|, attempt, branch, head)
    ensures forall k :: |ready| <= k < |acts| ==> !RecordedOrPushed(acts[k])
  {
    assert forall k :: |ready| <= k < |gated| ==> acts[k] == gated[k];
  }

  /** Everything before the gate. */
  method ReachHead(world: World, number: int, branch: string, head: nat, synchronize: bool, avoided: seq<nat>)
    returns (refusal: Option<Exit>, effective: nat, changes: seq<Change>)
    requires Inv(world.state)
    modifies world
    ensures Inv(world.state) && Evolves(old(world.state), world.state)
    ensures Chain(world.state.acts, |old(world.state).acts|, branch, effective, world.quiet)
    ensures forall k :: |old(world.state).acts| < k < |world.state.acts| ==> PreparationAct(world.state.acts[k])
    ensures LedgerSince(world.state.acts, |old(world.state).acts|).changes == changes
    ensures OnlyPushes(old(world.state), world.state, branch) && Accounted(old(world.state), world.state)
    ensures HeadChain(world.state.store, changes, head, effective)
    ensures !synchronize ==> changes == []
    ensures refusal.Some? ==> StaleAtTheEnd(world.state.acts, |old(world.state).acts|, synchronize, refusal.value)
    ensures refusal != Some(Returned(0))
    ensures refusal.Some? ==>
              TriedLast(world.state.acts, |old(world.state).acts|, None, branch, effective)
              && MovedRefs(old(world.state), world.state, branch, None)
              && RedIsTheExit(world.state.acts, |old(world.state).acts|, refusal.value)
              && Finished(old(world.state), world.state, world.quiet, branch, effective, avoided, refusal.value, None)
    ensures refusal.None? ==>
              && |world.state.acts| > |old(world.state).acts| && effective in world.state.local
              && Last(world.state.acts).Checking? && Last(world.state.acts).observeOnly
                 && Last(world.state.acts).head == effective
    ensures refusal.None? && world.quiet ==> CheckoutAt(world.state, branch, effective)
    ensures refusal.Some? && world.state.acts == old(world.state).acts ==> refusal.value == Raised && !world.reliable
    ensures refusal.Some? && |world.state.acts| > |old(world.state).acts| ==>
              EndSays(world.state, |old(world.state).moments| - 1, world.quiet, world.reliable, number, branch, head,
                      effective, avoided,
                      refusal.value, None)
  {
    effective, changes := head, [];
    ghost var start := world.state;
    var accepted := world.Report(PreflightPhase);
    if !accepted {
      refusal := Some(Raised);
    } else {
      refusal, effective, changes := ReachReported(world, number, branch, head, synchronize, avoided, start);
    }
    if refusal.Some? {
      RefusedEarly(start, world.state, world.quiet, branch, effective, avoided, refusal.value);
    }
  }

  /** Everything between the reported preflight phase and the gate. */
  method ReachReported(world: World, number: int, branch: string, head: nat, synchronize: bool, avoided: seq<nat>,
                       ghost start: State)
    returns (refusal: Option<Exit>, effective: nat, changes: seq<Change>)
    requires Inv(world.state) && start.moments != [] && Does(start, world.state, Reported(PreflightPhase))
    modifies world
    ensures Inv(world.state) && Evolves(old(world.state), world.state)
    ensures Chain(world.state.acts, |start.acts|, branch, effective, world.quiet)
    ensures forall k :: |start.acts| < k < |world.state.acts| ==> PreparationAct(world.state.acts[k])
    ensures LedgerSince(world.state.acts, |start.acts|).changes == changes
    ensures OnlyPushes(start, world.state, branch) && Accounted(start, world.state)
    ensures HeadChain(world.state.store, changes, head, effective)
    ensures !synchronize ==> changes == []
    ensures refusal.Some? ==> StaleAtTheEnd(world.state.acts, |start.acts|, synchronize, refusal.value)
    ensures refusal != Some(Returned(0))
    ensures refusal.None? ==>
              && |world.state.acts| > |start.acts| && effective in world.state.local
              && Last(world.state.acts).Checking? && Last(world.state.acts).observeOnly
                 && Last(world.state.acts).head == effective
    ensures refusal.None? && world.quiet ==> CheckoutAt(world.state, branch, effective)
    ensures refusal.Some? && |world.state.acts| > |start.acts| ==>
              EndSays(world.state, |start.moments| - 1, world.quiet, world.reliable, number, branch, head, effective,
                      avoided,
                      refusal.value, None)
  {
    effective, changes := head, [];
    refusal := CheckAvoidedHead(world, head, avoided);
    if refusal.None? {
      refusal, effective, changes := PrepareHead(world, number, branch, head, synchronize, avoided, start);
    } else {
      LedgerSkips(world.state.acts, |start.acts|);
    }
  }

  /** The preparation, once the submitted head passed its check for avoided commits. */
  method PrepareHead(world: World, number: int, branch: string, head: nat, synchronize: bool, avoided: seq<nat>,
                       ghost start: State)
    returns (refusal: Option<Exit>, effective: nat, changes: seq<Change>)
    requires Inv(world.state) && start.moments != [] && Evolves(start, world.state)
    requires world.state.acts == start.acts + [Reported(PreflightPhase)] && world.state.mine == start.mine
    modifies world
    ensures Inv(world.state) && Evolves(old(world.state), world.state)
    ensures Chain(world.state.acts, |start.acts|, branch, effective, world.quiet)
    ensures forall k :: |start.acts| < k < |world.state.acts| ==> PreparationAct(world.state.acts[k])
    ensures LedgerSince(world.state.acts, |start.acts|).changes == changes
    ensures OnlyPushes(start, world.state, branch) && Accounted(start, world.state)
    ensures HeadChain(world.state.store, changes, head, effective)
    ensures !synchronize ==> changes == []
    ensures refusal.Some? ==> StaleAtTheEnd(world.state.acts, |start.acts|, synchronize, refusal.value)
    ensures refusal != Some(Returned(0))
    ensures refusal.None? ==>
              && |world.state.acts| > |start.acts| && effective in world.state.local
              && Last(world.state.acts).Checking? && Last(world.state.acts).observeOnly
                 && Last(world.state.acts).head == effective
    ensures refusal.None? && world.quiet ==> CheckoutAt(world.state, branch, effective)
    ensures refusal.Some? && |world.state.acts| > |start.acts| ==>
              EndSays(world.state, |start.moments| - 1, world.quiet, world.reliable, number, branch, head, effective,
                      avoided,
                      refusal.value, None)
  {
    ghost var begun := world.state;
    var prepared: Step<()>;
    ghost var turns: seq<Turn>;
    prepared, effective, changes, turns := Prepare(world, synchronize, number, branch, head, avoided);
    PreparationBegins(start, begun, world.state, branch, head, effective, changes, world.quiet);
    refusal := if prepared.Good? then None else Some(Returned(prepared.status));
    if refusal.Some? {
      PreparationEnds(world.state, |start.moments| - 1, |start.acts| + 1, world.quiet, world.reliable, number, branch,
                      head,
                      effective, avoided, turns, prepared.status);
    }
  }

  /** What a preparation adds to the reported phase. */
  lemma PreparationBegins(start: State, begun: State, now: State, branch: string, submitted: nat, effective: nat,
                          changes: seq<Change>, quiet: bool)
    requires Evolves(start, begun) && begun.mine == start.mine
    requires begun.acts == start.acts + [Reported(PreflightPhase)]
    requires Evolves(begun, now) && Prepared(begun, now, branch, submitted, changes)
    ensures Chain(now.acts, |start.acts|, branch, effective, quiet)
    ensures forall k :: |start.acts| < k < |now.acts| ==> PreparationAct(now.acts[k])
    ensures LedgerSince(now.acts, |start.acts|) == LedgerSince(now.acts, |begun.acts|)
    ensures LedgerSince(now.acts, |start.acts|).changes == changes
    ensures OnlyPushes(start, now, branch) && Accounted(start, now)
  {
    PreparationChains(now.acts, |start.acts|, submitted, branch, effective, quiet);
    LedgerSkips(now.acts, |start.acts|);
  }

  /** A refused preparation gives the exit. */
  lemma PreparationEnds(now: State, since: nat, from: nat, quiet: bool, reliable: bool, number: int, branch: string,
                        submitted: nat, head: nat, avoided: seq<nat>, turns: seq<Turn>, status: nat)
    requires Inv(now) && from < |now.acts| && AllFit(now.acts, from, branch, submitted) && status != 0
    requires LastDecides(now, quiet, reliable, number, branch, turns, LedgerSince(now.acts, from).synchronizations,
                         Refused(status))
    ensures EndSays(now, since, quiet, reliable, number, branch, submitted, head, avoided, Returned(status), None)
  {
    FittingPrepares(now.acts, from, branch, submitted, |now.acts| - 1);
    var synchronizations := LedgerSince(now.acts, from).synchronizations;
    assert StepOf(Returned(status)) == Refused(status);
    assert LastDecides(now, quiet, reliable, number, branch, turns, synchronizations, StepOf(Returned(status)));
  }

  /** A reported phase does not enter the ledger, and moves no ref. */
  lemma {:induction false} LedgerSkips(acts: seq<Act>, from: nat)
    requires from < |acts| && acts[from].Reported?
    ensures LedgerSince(acts, from) == LedgerSince(acts, from + 1)
              && MovedSince(acts, from) == MovedSince(acts, from + 1)
  {
    if from + 1 < |acts| {
      LedgerSkips(acts[..|acts| - 1], from);
    } else {
      assert LedgerSince(acts[..from], from) == Ledger(0, 0, []) && MovedSince(acts[..from], from) == [];
    }
  }

  /** `execute` of the landing worker. */
  method Land(world: World, number: int, branch: string, head: nat, synchronize: bool, avoided: seq<nat>, reusing: bool)
    returns (exit: Exit, effective: nat, changes: seq<Change>, ghost attempt: Option<Attempt>)
    requires Inv(world.state)
    modifies world
    ensures Inv(world.state) && Evolves(old(world.state), world.state)
    // Everything the landing did, in the order that puts the green gate of exactly this head before its publication.
    ensures Chain(world.state.acts, |old(world.state).acts|, branch, effective, world.quiet)
    ensures TriedLast(world.state.acts, |old(world.state).acts|, attempt, branch, effective)
    // The refs it moved, exactly by these acts: the request branch, and then at most once the target.
    ensures MovedRefs(old(world.state), world.state, branch, attempt) && Accounted(old(world.state), world.state)
    // The head that is gated and published holds the submitted one, by the recorded merges only.
    ensures LedgerSince(world.state.acts, |old(world.state).acts|).changes == changes
    ensures HeadChain(world.state.store, changes, head, effective)
    ensures !synchronize ==> effective == head
    ensures exit == Returned(0) ==> ReportedPublishing(world.state.acts, |old(world.state).acts|)
    ensures RedIsTheExit(world.state.acts, |old(world.state).acts|, exit)
    ensures GatedAs(world.state.acts, |old(world.state).acts|, reusing && effective in world.receipts)
    ensures |world.state.acts| > |old(world.state).acts| && Rank(Last(world.state.acts)) == 1 ==>
              StaleAtTheEnd(world.state.acts, |old(world.state).acts|, synchronize, exit)
    ensures Finished(old(world.state), world.state, world.quiet, branch, effective, avoided, exit, attempt)
    // The exit is what the last thing done, and what was heard of it, says.
    ensures if world.state.acts == old(world.state).acts then exit == Raised && !world.reliable
            else EndSays(world.state, |old(world.state).moments| - 1, world.quiet, world.reliable, number, branch, head,
                         effective, avoided, exit, attempt)
  {
    attempt := None;
    ghost var start := world.state;
    var refusal: Option<Exit>;
    refusal, effective, changes := ReachHead(world, number, branch, head, synchronize, avoided);
    if refusal.Some? {
      exit := refusal.value;
    } else {
      exit, attempt := LandPrepared(world, number, branch, head, effective, avoided, reusing, start, changes);
    }
  }

  /** `execute` from the prepared head on. */
  method LandPrepared(world: World, number: int, branch: string, ghost submitted: nat, head: nat, avoided: seq<nat>,
                      reusing: bool, ghost start: State, ghost changes: seq<Change>)
    returns (exit: Exit, ghost attempt: Option<Attempt>)
    requires Inv(world.state) && Inv(start) && Evolves(start, world.state) && head in world.state.local
    requires GreenChain(world.state.acts, |start.acts|, branch, head, world.quiet)
    requires Last(world.state.acts).Checking? && Last(world.state.acts).observeOnly
              && Last(world.state.acts).head == head
    requires world.quiet ==> world.state.head == head && world.state.clean
    requires forall k :: |start.acts| < k < |world.state.acts| ==> PreparationAct(world.state.acts[k])
    requires OnlyPushes(start, world.state, branch) && Accounted(start, world.state)
    requires LedgerSince(world.state.acts, |start.acts|).changes == changes
    requires HeadChain(world.state.store, changes, submitted, head)
    modifies world
    ensures Inv(world.state) && Evolves(start, world.state)
    ensures Chain(world.state.acts, |start.acts|, branch, head, world.quiet)
    ensures TriedLast(world.state.acts, |start.acts|, attempt, branch, head)
    ensures MovedRefs(start, world.state, branch, attempt) && Accounted(start, world.state)
    ensures LedgerSince(world.state.acts, |start.acts|).changes == changes
    ensures HeadChain(world.state.store, changes, submitted, head)
    ensures exit == Returned(0) ==> ReportedPublishing(world.state.acts, |start.acts|)
    ensures RedIsTheExit(world.state.acts, |start.acts|, exit)
    ensures GatedAs(world.state.acts, |start.acts|, reusing && head in world.receipts)
    ensures |world.state.acts| > |start.acts| && (Rank(Last(world.state.acts)) == 1 ==> exit == Raised)
    ensures Finished(start, world.state, world.quiet, branch, head, avoided, exit, attempt)
    ensures EndSays(world.state, |start.moments| - 1, world.quiet, world.reliable, number, branch, submitted, head,
                    avoided,
                    exit, attempt)
  {
    ghost var ready := world.state;
    exit, attempt := GateAndPublish(world, number, branch, submitted, |start.moments| - 1, head, avoided, reusing,
                                    |start.acts|);
    HeadChainIsStable(ready.store, world.state.store, changes, submitted, head);
    FinishedEarlier(start, ready, world.state, world.quiet, branch, head, avoided, exit, attempt);
    LandingConcludes(start, ready, world.state, branch, head, attempt);
    GatedThroughout(ready.acts, world.state.acts, |start.acts|, reusing && head in world.receipts);
  }

  /** What the part after the preparation adds to a landing. */
  lemma LandingConcludes(start: State, ready: State, now: State, branch: string, head: nat, attempt: Option<Attempt>)
    requires Evolves(start, ready) && Evolves(ready, now)
    requires OnlyPushes(start, ready, branch) && now.mine == ready.mine + Applied(attempt)
    requires forall k :: |start.acts| < k < |ready.acts| ==> PreparationAct(ready.acts[k])
    requires |ready.acts| > |start.acts| && ready.acts[|start.acts|] == Reported(PreflightPhase)
    requires forall k :: |ready.acts| <= k < |now.acts| ==> !RecordedOrPushed(now.acts[k])
    requires Accounted(start, ready)
    requires TriedLast(now.acts, |ready.acts|, attempt, branch, head)
    ensures TriedLast(now.acts, |start.acts|, attempt, branch, head) && MovedRefs(start, now, branch, attempt)
    ensures LedgerSince(now.acts, |start.acts|).changes == LedgerSince(ready.acts, |start.acts|).changes
    ensures Accounted(start, now)
  {
    var from := |start.acts|;
    TargetIsLast(start, ready, now, branch, attempt);
    TriedFromTheStart(ready.acts, now.acts, from, attempt, branch, head);
    LandingRecords(ready.acts, now.acts, from, attempt, branch, head);
    LandingMoves(start, ready, now, attempt);
  }

  lemma GatedThroughout(before: seq<Act>, acts: seq<Act>, from: nat, covered: bool)
    requires from < |before| && before <= acts && before[from] == Reported(PreflightPhase)
    requires forall k :: from < k < |before| ==> PreparationAct(before[k])
    requires GatedAs(acts, |before|, covered)
    ensures GatedAs(acts, from, covered)
  {
  }

  lemma LandingRecords(before: seq<Act>, acts: seq<Act>, from: nat, attempt: Option<Attempt>, branch: string, head: nat)
    requires from <= |before| && before <= acts && TriedLast(acts, |before|, attempt, branch, head)
    requires forall k :: |before| <= k < |acts| ==> !RecordedOrPushed(acts[k])
    ensures LedgerSince(acts, from).changes == LedgerSince(before, from).changes
    ensures MovedSince(acts, from) == MovedSince(before, from) + Applied(attempt)
  {
    NothingRecorded(before, acts, from);
    PublicationMoves(before, acts, from, attempt, branch, head);
  }

  lemma LandingMoves(start: State, ready: State, now: State, attempt: Option<Attempt>)
    requires start.acts <= ready.acts && start.acts <= now.acts && Accounted(start, ready)
    requires now.mine == ready.mine + Applied(attempt)
    requires MovedSince(now.acts, |start.acts|) == MovedSince(ready.acts, |start.acts|) + Applied(attempt)
    ensures Accounted(start, now)
  {
  }

  lemma TriedFromTheStart(before: seq<Act>, acts: seq<Act>, from: nat, attempt: Option<Attempt>, branch: string,
                          head: nat)
    requires from <= |before| && before <= acts && TriedLast(acts, |before|, attempt, branch, head)
    requires forall k :: from <= k < |before| ==> !before[k].Updating?
    ensures TriedLast(acts, from, attempt, branch, head)
  {
  }

  /** After the preparation only a tried update can have moved a ref. */
  lemma PublicationMoves(before: seq<Act>, acts: seq<Act>, from: nat, attempt: Option<Attempt>, branch: string,
                         head: nat)
    requires from <= |before| && before <= acts && TriedLast(acts, |before|, attempt, branch, head)
    requires forall k :: |before| <= k < |acts| ==> !RecordedOrPushed(acts[k])
    ensures MovedSince(acts, from) == MovedSince(before, from) + Applied(attempt)
  {
    assert acts[..|before|] == before;
    if attempt.Some? {
      OneMove(acts, from, |before|, |acts| - 1);
    } else {
      NothingMoved(acts, from, |before|);
    }
  }

  lemma TargetIsLast(start: State, ready: State, now: State, branch: string, attempt: Option<Attempt>)
    requires Evolves(start, ready) && Evolves(ready, now) && OnlyPushes(start, ready, branch)
              && now.mine == ready.mine + Applied(attempt)
    ensures MovedRefs(start, now, branch, attempt)
  {
  }

  /** A landing that is refused before its gate published nothing. */
  lemma RefusedEarly(start: State, now: State, quiet: bool, branch: string, head: nat, avoided: seq<nat>, exit: Exit)
    requires Inv(start) && Inv(now) && Evolves(start, now) && OnlyPushes(start, now, branch) && exit != Returned(0)
    requires forall k :: |start.acts| < k < |now.acts| ==> PreparationAct(now.acts[k])
    requires |now.acts| > |start.acts| ==> now.acts[|start.acts|] == Reported(PreflightPhase)
    ensures TriedLast(now.acts, |start.acts|, None, branch, head) && MovedRefs(start, now, branch, None)
    ensures RedIsTheExit(now.acts, |start.acts|, exit) && Finished(start, now, quiet, branch, head, avoided, exit, None)
  {
    TargetIsLast(start, now, now, branch, None);
  }

  /** What is done after the preparation records no change. */
  lemma NothingRecorded(before: seq<Act>, acts: seq<Act>, from: nat)
    requires from <= |before| && before <= acts && forall k :: |before| <= k < |acts| ==> !acts[k].Recorded?
    ensures LedgerSince(acts, from).changes == LedgerSince(before, from).changes
  {
    RecordsEnd(acts, from, |before|);
    assert acts[..|before|] == before;
  }

  lemma {:induction false} RecordsEnd(acts: seq<Act>, from: nat, upTo: nat)
    requires from <= upTo <= |acts| && forall k :: upTo <= k < |acts| ==> !acts[k].Recorded?
    ensures LedgerSince(acts, from).changes == LedgerSince(acts[..upTo], from).changes
  {
    if upTo == |acts| {
      assert acts[..upTo] == acts;
    } else {
      RecordsEnd(acts[..|acts| - 1], from, upTo);
      assert acts[..|acts| - 1][..upTo] == acts[..upTo];
    }
  }
}
