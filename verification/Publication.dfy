/** Publishing one exact gated head. */
module Publication {

  import opened Outcomes
  import opened Commits
  import opened Forge

  const PROPAGATION_WAIT_SECONDS: nat := 30
  const PROPAGATION_POLL_SECONDS: nat := 2
  const MAX_WAITS := PROPAGATION_WAIT_SECONDS / PROPAGATION_POLL_SECONDS

  // ---------------------------------------------------------------- instants

  /** Where a call began: the last moment before it, and what had been heard by then. */
  datatype Mark = Mark(moment: nat, heard: nat)

  function Here(state: State): Mark
    requires state.moments != []
  {
    Mark(|state.moments| - 1, |state.heard|)
  }

  /** The metadata that publication accepts: an open or merged request of this branch at this head. */
  predicate Acceptable(pr: PullRequest, branch: string, head: nat) {
    pr.sameRepository && pr.wellNamed && pr.branch == branch && pr.head == head && (pr.merged || !pr.draft)
  }

  /** The `k`th thing heard is a request of this branch at this head in the same repository, which is merged or
      ready, and it targets `base`. */
  ghost predicate Names(state: State, k: nat, base: string, branch: string, head: nat) {
    && k < |state.heard| && state.heard[k].Told? && state.heard[k].answer.Record?
    && var pr := state.heard[k].answer.pr;
       && pr.base == base && pr.branch == branch && pr.head == head && pr.sameRepository
       && (pr.draft ==> pr.merged)
  }

  /** At moment `i` the target `base` held the gated head. */
  ghost predicate HeldAt(state: State, i: nat, base: string, head: nat)
    requires Inv(state)
  {
    i < |state.moments| && base in state.moments[i].refs && Reaches(state.store, head, state.moments[i].refs[base])
  }

  /** At moment `i` the request branch held the head, and the head already held the target. */
  ghost predicate ReadyAt(state: State, i: nat, base: string, branch: string, head: nat)
    requires Inv(state)
  {
    && i < |state.moments|
    && var refs := state.moments[i].refs;
       branch in refs && refs[branch] == head && base in refs && Reaches(state.store, refs[base], head)
  }

  /** Since the mark, the target that the forge named for this request held the head at some moment. */
  ghost predicate HeldSince(state: State, since: Mark, branch: string, head: nat)
    requires Inv(state)
  {
    exists i, k, base ::
        since.moment <= i && since.heard <= k && Names(state, k, base, branch, head) && HeldAt(state, i, base, head)
  }

  /** Since the mark, the head could be published at some moment onto the target that the forge named for it. */
  ghost predicate ReadySince(state: State, since: Mark, branch: string, head: nat)
    requires Inv(state)
  {
    exists i, k, base ::
        since.moment <= i && since.heard <= k && Names(state, k, base, branch, head)
        && ReadyAt(state, i, base, branch, head)
  }

  ghost predicate Earlier(a: Mark, b: Mark) {
    a.moment <= b.moment && a.heard <= b.heard
  }

  lemma HeldEarlier(state: State, since: Mark, later: Mark, branch: string, head: nat)
    requires Inv(state) && Earlier(since, later) && HeldSince(state, later, branch, head)
    ensures HeldSince(state, since, branch, head)
  {
    var i, k, base :| later.moment <= i && later.heard <= k && Names(state, k, base, branch, head)
        && HeldAt(state, i, base, head);
  }

  lemma ReadyEarlier(state: State, since: Mark, later: Mark, branch: string, head: nat)
    requires Inv(state) && Earlier(since, later) && ReadySince(state, later, branch, head)
    ensures ReadySince(state, since, branch, head)
  {
    var i, k, base :| later.moment <= i && later.heard <= k && Names(state, k, base, branch, head)
        && ReadyAt(state, i, base, branch, head);
  }

  /** A head that may be published need not be landed: the two findings differ. */
  lemma ReadyIsNotHeld()
    ensures exists state, since ::
              Inv(state) && ReadySince(state, since, "topic", 1) && !HeldSince(state, since, "topic", 1)
  {
    var state := OpenRequest();
    OpenRequestOk();
    assert Names(state, 0, "main", "topic", 1) && ReadyAt(state, 0, "main", "topic", 1);
    assert ReadySince(state, Mark(0, 0), "topic", 1);
    assert !HeldSince(state, Mark(0, 0), "topic", 1);
  }

  /** One open request whose branch is one commit ahead of the target. */
  ghost function OpenRequest(): State {
    var refs := map["main" := 0, "topic" := 1];
    State([Commit(0, []), Commit(1, [0])], refs, {0, 1}, Some("topic"), 1, true, [Moment(refs, Start)], [],
          [Told(Record(PullRequest(false, false, "main", "topic", 1, true, true)))], [])
  }

  lemma OpenRequestOk()
    ensures Inv(OpenRequest()) && Reaches(OpenRequest().store, 0, 1) && !Reaches(OpenRequest().store, 1, 0)
  {
    var state := OpenRequest();
    assert RefsExist(state.store, state.refs);
    assert Reaches(state.store, 0, state.store[1].parents[0]);
  }

  // ---------------------------------------------------------------- the attempt

  /** A second look at the target: when, and what it held. */
  datatype Look = Look(moment: nat, target: nat)

  /** What became of one `update_refs` call: whether the reply arrived, at which moment the update took
      effect, and what the re-read of the target showed when there was one. */
  datatype Attempt = Attempt(base: string, target: nat, candidate: nat, replied: bool, applied: Option<nat>,
                             reread: Option<Look>)

  /** The call can tell that its candidate is, or was, the target. */
  ghost predicate Confirmed(attempt: Attempt) {
    attempt.replied || (attempt.reread.Some? && attempt.reread.value.target == attempt.candidate)
  }

  /** The attempt is one landing of `head` in this history, or did not take effect. */
  ghost predicate AttemptOk(state: State, since: nat, attempt: Attempt, branch: string, head: nat)
    requires Inv(state)
  {
    && head < |state.store| && attempt.candidate < |state.store|
    && state.store[attempt.candidate] == Commit(state.store[head].tree, [attempt.target, head])
    && Reaches(state.store, attempt.target, head)
    && (attempt.replied ==> attempt.applied.Some?)
    && (attempt.applied.Some? ==>
        && since < attempt.applied.value < |state.moments|
        && var before, after := state.moments[attempt.applied.value - 1], state.moments[attempt.applied.value];
           && after.cause == Landed(attempt.base, branch, head)
           && attempt.base in before.refs && before.refs[attempt.base] == attempt.target
           && attempt.base in after.refs && after.refs[attempt.base] == attempt.candidate)
    && (attempt.reread.Some? ==>
        && (if attempt.applied.Some? then attempt.applied.value
            else since) <= attempt.reread.value.moment < |state.moments|
        && var refs := state.moments[attempt.reread.value.moment].refs;
           attempt.base in refs && refs[attempt.base] == attempt.reread.value.target)
  }

  function UpdateOf(attempt: Attempt, branch: string, head: nat): Act {
    Updating(attempt.base, attempt.target, attempt.candidate, branch, head, attempt.replied, attempt.applied)
  }

  /** What an error of the update means once the refs have been read again. */
  function Aftermath(again: Step<Observed>, target: nat, candidate: nat, head: nat): Step<()> {
    if !again.Good? then again.PropagateFailure()
    else if again.value.target == candidate then Good(())
    else if again.value.target != target then Refused(STALE_MAIN)
    else if again.value.branch != Some(head) then Refused(HEAD_CHANGED)
    else Refused(PUBLISH_FAILED)
  }

  /** With a reply that is the result; otherwise the last thing heard, one look at the refs, decides, and is
      what the attempt reports as its re-read. */
  ghost predicate Concluded(state: State, attempt: Attempt, branch: string, head: nat, exit: Step<()>) {
    if attempt.replied then
      exit == Good(()) && attempt.reread.None?
    else
      && state.heard != [] && state.heard[|state.heard| - 1].Saw?
      && var look := state.heard[|state.heard| - 1];
         && look.base == attempt.base && look.branch == branch
         && attempt.reread == (if look.observed.Good? then Some(Look(look.moment, look.observed.value.target))
                               else None)
         && if look.observed.Good? then
              look.moment < |state.moments| && DecidedBy(state.moments[look.moment].refs, attempt, branch, head, exit)
            else
              exit.Refused? && look.observed.Refused? && exit.status == look.observed.status
  }

  /** The refs that the look showed decide. With the candidate in the target the update landed; a target that is
      neither that nor the old one was moved by somebody else; otherwise nothing happened, and the request branch
      moved away, or the update failed. */
  ghost predicate DecidedBy(refs: map<string, nat>, attempt: Attempt, branch: string, head: nat, exit: Step<()>) {
    && attempt.base in refs
    && var now, there := refs[attempt.base], branch in refs && refs[branch] == head;
       && (exit.Good? <==> now == attempt.candidate)
       && (exit == Refused(STALE_MAIN) <==> now != attempt.candidate && now != attempt.target)
       && (exit == Refused(HEAD_CHANGED) <==> now != attempt.candidate && now == attempt.target && !there)
       && (exit == Refused(PUBLISH_FAILED) <==> now != attempt.candidate && now == attempt.target && there)
  }

  /** The attempt is all this caller did, and at most one look followed it. */
  ghost predicate Attempted(before: State, after: State, attempt: Attempt, branch: string, head: nat) {
    && Evolves(before, after)
    && after.acts == before.acts + [UpdateOf(attempt, branch, head)]
    && after.mine == before.mine + Moments(attempt.applied)
    && |after.heard| == |before.heard| + (if attempt.replied then 0 else 1)
  }

  /** When a landing took effect and the re-read saw another target, somebody else moved the target in between. */
  lemma {:induction false} SomebodyMovedTheTarget(state: State, attempt: Attempt, upTo: nat) returns (i: nat)
    requires Inv(state) && attempt.applied.Some? && attempt.applied.value < upTo < |state.moments|
    requires attempt.base in state.moments[attempt.applied.value].refs
    requires state.moments[attempt.applied.value].refs[attempt.base] == attempt.candidate
    requires attempt.base !in state.moments[upTo].refs || state.moments[upTo].refs[attempt.base] != attempt.candidate
    ensures attempt.applied.value < i <= upTo
    ensures attempt.base in state.moments[i - 1].refs && state.moments[i - 1].refs[attempt.base] == attempt.candidate
    ensures attempt.base !in state.moments[i].refs || state.moments[i].refs[attempt.base] != attempt.candidate
    decreases upTo
  {
    var earlier := state.moments[upTo - 1].refs;
    if attempt.base in earlier && earlier[attempt.base] == attempt.candidate {
      i := upTo;
    } else {
      i := SomebodyMovedTheTarget(state, attempt, upTo - 1);
    }
  }

  /** A refused publication whose update took effect, and whose re-read succeeded, was overtaken. */
  lemma UnconfirmedLanding(state: State, since: nat, attempt: Attempt, branch: string, head: nat) returns (i: nat)
    requires Inv(state) && AttemptOk(state, since, attempt, branch, head)
    requires attempt.applied.Some? && attempt.reread.Some? && !Confirmed(attempt)
    ensures attempt.applied.value < i <= attempt.reread.value.moment < |state.moments|
    ensures attempt.base in state.moments[i - 1].refs && state.moments[i - 1].refs[attempt.base] == attempt.candidate
    ensures attempt.base !in state.moments[i].refs || state.moments[i].refs[attempt.base] != attempt.candidate
  {
    i := SomebodyMovedTheTarget(state, attempt, attempt.reread.value.moment);
  }

  /** A landing can take effect and be refused without anybody overtaking it: the reply is lost, and so is
      the re-read. */
  lemma LostReplyIsRefused()
    ensures exists before, after, attempt :: LostReply(before, after, attempt)
  {
    var attempt := Attempt("main", 0, 2, false, Some(1), None);
    OpenRequestOk();
    LandedRequestOk();
    var before := OpenRequest().(store := LandedRequest().store);
    MoreCommits();
    assert Attempted(before, LandedRequest(), attempt, "topic", 1);
    assert LostReply(before, LandedRequest(), attempt);
  }

  ghost predicate LostReply(before: State, after: State, attempt: Attempt) {
    && Inv(before) && Inv(after) && AttemptOk(after, 0, attempt, "topic", 1)
    && Attempted(before, after, attempt, "topic", 1)
    && Concluded(after, attempt, "topic", 1, Refused(MERGE_ERROR))
    && attempt.applied.Some? && "main" in after.refs && after.refs["main"] == attempt.candidate
  }

  /** The same request after its landing, when only an unreadable look followed the lost reply. */
  ghost function LandedRequest(): State {
    var before := OpenRequest();
    var refs := map["main" := 2, "topic" := 1];
    before.(store := before.store + [Commit(1, [0, 1])], refs := refs,
            moments := before.moments + [Moment(refs, Landed("main", "topic", 1))],
            mine := [1], acts := [Updating("main", 0, 2, "topic", 1, false, Some(1))],
            heard := before.heard + [Saw(1, "main", "topic", Refused(MERGE_ERROR))])
  }

  lemma MoreCommits()
    ensures Inv(OpenRequest().(store := LandedRequest().store))
  {
    OpenRequestOk();
    HistoryIsStable(OpenRequest().store, LandedRequest().store, OpenRequest().moments);
  }

  lemma LandedRequestOk()
    ensures Inv(LandedRequest()) && Reaches(LandedRequest().store, 0, 1)
  {
    var state := LandedRequest();
    OpenRequestOk();
    ReachesIsStable(OpenRequest().store, state.store, 0, 1);
    assert "main" != "topic" by { assert |"main"| != |"topic"|; }
    assert RefsExist(state.store, state.moments[0].refs) && RefsExist(state.store, state.refs);
    assert LandedOk(state.store, state.moments[0].refs, state.moments[1]);
    assert CauseOk(state.store, state.moments[0].refs, state.moments[1]);
  }

  lemma AttemptIsStable(before: State, after: State, since: nat, attempt: Attempt, branch: string, head: nat)
    requires Inv(before) && Inv(after) && Evolves(before, after) && AttemptOk(before, since, attempt, branch, head)
    ensures AttemptOk(after, since, attempt, branch, head)
  {
    ReachesIsStable(before.store, after.store, attempt.target, head);
  }

  lemma AttemptEarlier(state: State, since: nat, later: nat, attempt: Attempt, branch: string, head: nat)
    requires Inv(state) && since <= later && AttemptOk(state, later, attempt, branch, head)
    ensures AttemptOk(state, since, attempt, branch, head)
  {
  }

  /** Once the target is the candidate, it holds the gated head. */
  lemma LandedHolds(state: State, i: nat, base: string, candidate: nat, target: nat, head: nat)
    requires Inv(state) && i < |state.moments| && base in state.moments[i].refs
              && state.moments[i].refs[base] == candidate
    requires candidate < |state.store| && head < |state.store| && state.store[candidate].parents == [target, head]
    ensures HeldAt(state, i, base, head)
  {
    MergeReaches(state.store, candidate, target, head, head);
  }

  // ---------------------------------------------------------------- checks

  /** Why publication refuses other metadata. */
  function RefusalFor(pr: PullRequest, branch: string, head: nat): nat
    requires !Acceptable(pr, branch, head)
  {
    if !pr.sameRepository || !pr.wellNamed || pr.branch != branch then NOT_READY
    else if pr.head != head then HEAD_CHANGED
    else NOT_READY
  }

  /** A record that publication turns down: status 76 exactly when it is this branch in the same repository at
      another head, and otherwise 77. */
  ghost predicate TurnedDown(pr: PullRequest, branch: string, head: nat, status: nat) {
    var ours := pr.sameRepository && pr.wellNamed && pr.branch == branch;
    && !(ours && pr.head == head && (pr.draft ==> pr.merged))
    && status == if ours && pr.head != head then HEAD_CHANGED else NOT_READY
  }

  /** What cannot be asked for at all. */
  ghost predicate BadCall(number: int, branch: string, head: nat, replaced: Option<nat>) {
    number <= 0 || branch == "" || replaced == Some(head)
  }

  /** What the checks of `execute` find, as everything heard in them says. Nothing is asked of a call or a checkout
      that is not as it should be; every answer but the last still named the replaced head; an answer that is not
      accepted is turned down; and of an accepted one the look at the refs of its target decides. */
  ghost predicate Found(before: State, after: State, quiet: bool, reliable: bool, number: int, branch: string,
                        head: nat,
                        replaced: Option<nat>, verdict: Step<Verdict>)
    requires Inv(after)
  {
    var n, m := |before.heard|, |after.heard|;
    && n <= m && (BadCall(number, branch, head, replaced) ==> m == n)
    && if m == n then
         && verdict == Refused(MERGE_ERROR)
         && (quiet && reliable ==> BadCall(number, branch, head, replaced) || !CheckoutAt(before, branch, head))
       else
         var last := after.heard[m - 1];
         if last.Told? then
           && OnlyStale(after.heard, n, m - 1, replaced)
           && if last.answer.Record? then
                verdict.Refused? && TurnedDown(last.answer.pr, branch, head, verdict.status)
              else
                verdict.Refused? && Understood(last.answer, Refused(verdict.status))
         else
           && m - 2 >= n && OnlyStale(after.heard, n, m - 2, replaced)
           && after.heard[m - 2].Told? && after.heard[m - 2].answer.Record?
           && var pr := after.heard[m - 2].answer.pr;
              && pr.sameRepository && pr.wellNamed && pr.branch == branch && pr.head == head && (pr.draft ==> pr.merged)
              && last.base == pr.base && last.branch == branch
              && Judged(after, pr, last.observed, branch, head, reliable, verdict)
  }

  /** These answers, and no more than the wait allows, still named the replaced head. */
  ghost predicate OnlyStale(heard: seq<Heard>, from: nat, upTo: nat, replaced: Option<nat>) {
    && from <= upTo <= |heard| && upTo - from <= MAX_WAITS
    && forall i :: from <= i < upTo ==>
         heard[i].Told? && heard[i].answer.Record? && replaced == Some(heard[i].answer.pr.head)
  }

  /** `_read_pull_request`: wait, for a bounded time, only while the forge still names the replaced head. */
  method ReadPullRequest(world: World, replaced: Option<nat>) returns (pr: Step<PullRequest>, ghost waits: nat)
    requires Inv(world.state)
    modifies world
    ensures Inv(world.state) && Reads(old(world.state), world.state)
    ensures world.quiet ==> SameCheckout(old(world.state), world.state)
    ensures waits <= MAX_WAITS
    ensures |world.state.heard| == |old(world.state).heard| + waits + 1
    ensures world.state.heard[|old(world.state).heard| + waits].Told?
            && Understood(world.state.heard[|old(world.state).heard| + waits].answer, pr)
    ensures OnlyStale(world.state.heard, |old(world.state).heard|, |old(world.state).heard| + waits, replaced)
    ensures pr.Good? && replaced == Some(pr.value.head) ==> waits == MAX_WAITS
  {
    var waited := 0;
    waits := 0;
    while true
      invariant Inv(world.state) && Reads(old(world.state), world.state)
      invariant world.quiet ==> SameCheckout(old(world.state), world.state)
      invariant waited == waits * PROPAGATION_POLL_SECONDS && waited <= PROPAGATION_WAIT_SECONDS
      invariant |world.state.heard| == |old(world.state).heard| + waits
      invariant OnlyStale(world.state.heard, |old(world.state).heard|, |world.state.heard|, replaced)
      decreases PROPAGATION_WAIT_SECONDS - waited
    {
      pr := world.ReadMetadata();
      if !pr.Good? || replaced.None? || pr.value.head != replaced.value || waited >= PROPAGATION_WAIT_SECONDS {
        return;
      }
      world.Interfere();
      waited := waited + PROPAGATION_POLL_SECONDS;
      waits := waits + 1;
    }
  }

  /** The checkout is on the request branch at the gated head, without local changes. */
  method CheckCheckout(world: World, branch: string, head: nat) returns (checked: Step<()>)
    requires Inv(world.state)
    modifies world
    ensures Inv(world.state) && Silent(old(world.state), world.state)
    ensures world.quiet ==> SameCheckout(old(world.state), world.state)
    ensures checked.Good? ==> head in world.state.local
    ensures checked.Good? && world.quiet ==> CheckoutAt(world.state, branch, head)
    ensures world.quiet && world.reliable && CheckoutAt(old(world.state), branch, head) ==> checked.Good?
    ensures checked.Refused? ==> checked.status == MERGE_ERROR
    ensures !checked.Stopped?
  {
    var _ :- world.Command();
    if world.state.branch != Some(branch) {
      return Refused(MERGE_ERROR);
    }
    var _ :- world.Command();
    if world.state.head != head {
      return Refused(MERGE_ERROR);
    }
    var _ :- world.Command();
    if !world.state.clean {
      return Refused(MERGE_ERROR);
    }
    return Good(());
  }

  /** What the checks before publication found: the head is in the target already, or it may be
      published on top of the observed target. */
  datatype Verdict = AlreadyLanded | MayPublish(base: string, target: nat)

  /** Which comparison gives which verdict, for the refs that were read and what is an ancestor of what.
      A comparison that could not be made has status 79. */
  ghost predicate Judged(state: State, pr: PullRequest, seen: Step<Observed>, branch: string, head: nat,
                         reliable: bool, verdict: Step<Verdict>)
    requires Inv(state)
  {
    if !seen.Good? then
      verdict.Refused? && seen.Refused? && verdict.status == seen.status
    else
      var refs := seen.value;
      var contained, included := Reaches(state.store, head, refs.target), Reaches(state.store, refs.target, head);
      || (verdict == Refused(MERGE_ERROR) && !reliable)
      || verdict == if pr.merged then (if contained then Good(AlreadyLanded) else Refused(NOT_READY))
                    else if refs.branch == Some(head) && included then Good(MayPublish(pr.base, refs.target))
                    else if contained then Good(AlreadyLanded)
                    else if refs.branch != Some(head) then Refused(HEAD_CHANGED)
                    else Refused(STALE_MAIN)
  }

  /** The checks that compare the remote refs with the gated head. */
  method CompareRefs(world: World, pr: PullRequest, branch: string, head: nat) returns (verdict: Step<Verdict>)
    requires Inv(world.state) && head in world.state.local
    modifies world
    ensures Inv(world.state) && Reads(old(world.state), world.state)
    ensures world.quiet ==> SameCheckout(old(world.state), world.state)
    ensures head in world.state.local
    ensures |world.state.heard| == |old(world.state).heard| + 1
    ensures var look := world.state.heard[|old(world.state).heard|];
            && look.Saw? && look.base == pr.base && look.branch == branch
            && |old(world.state).moments| - 1 <= look.moment < |world.state.moments|
            && (look.observed.Good? ==>
                look.observed == RefsSeen(world.state.moments[look.moment].refs, pr.base, branch, false))
            && Judged(world.state, pr, look.observed, branch, head, world.reliable, verdict)
    ensures verdict.Refused? ==> verdict.status in {STALE_MAIN, HEAD_CHANGED, NOT_READY, MERGE_ERROR}
    ensures !verdict.Stopped?
  {
    var refs :- world.RemoteRefs(pr.base, branch, false);
    ghost var seen := world.state;
    assert RefsExist(seen.store, seen.refs);
    if pr.merged {
      var contained :- world.IsAncestorRemotely(head, refs.target);
      return if contained then Good(AlreadyLanded) else Refused(NOT_READY);
    }
    var included :- world.IsAncestorLocally(refs.target, head);
    ghost var compared := world.state;
    if refs.branch != Some(head) || !included {
      var contained :- world.IsAncestorRemotely(head, refs.target);
      ReachesIsStable(compared.store, world.state.store, refs.target, head);
      if contained {
        return Good(AlreadyLanded);
      }
    }
    if refs.branch != Some(head) {
      return Refused(HEAD_CHANGED);
    }
    if !included {
      return Refused(STALE_MAIN);
    }
    return Good(MayPublish(pr.base, refs.target));
  }

  /** What a verdict about the refs of the request's own target means for the call. */
  lemma VerdictMeans(state: State, since: Mark, k: nat, pr: PullRequest, branch: string, head: nat,
                     reliable: bool, verdict: Step<Verdict>)
    requires Inv(state) && since.heard <= k && k + 1 < |state.heard| && state.heard[k] == Told(Record(pr))
              && Acceptable(pr, branch, head)
    requires var look := state.heard[k + 1];
             && look.Saw? && since.moment <= look.moment < |state.moments|
             && (look.observed.Good? ==>
                 look.observed == RefsSeen(state.moments[look.moment].refs, pr.base, branch, false))
             && Judged(state, pr, look.observed, branch, head, reliable, verdict)
    ensures Names(state, k, pr.base, branch, head)
    ensures verdict == Good(AlreadyLanded) ==> HeldSince(state, since, branch, head)
    ensures verdict.Good? && verdict.value.MayPublish? ==>
              && ReadySince(state, since, branch, head)
              && verdict.value.base == pr.base && Reaches(state.store, verdict.value.target, head)
  {
    var look := state.heard[k + 1];
    assert Names(state, k, pr.base, branch, head);
    if verdict == Good(AlreadyLanded) {
      assert HeldAt(state, look.moment, pr.base, head);
    } else if verdict.Good? {
      assert ReadyAt(state, look.moment, pr.base, branch, head);
    }
  }

  /** The base that a publishable head goes to is the one an answer since the mark named. */
  ghost predicate NamedSince(state: State, since: Mark, base: string, branch: string, head: nat) {
    exists k :: since.heard <= k && Names(state, k, base, branch, head)
  }

  /** Every check of `execute` up to the first change it makes. */
  method Validate(world: World, number: int, branch: string, head: nat, replaced: Option<nat>)
    returns (verdict: Step<Verdict>, ghost k: nat)
    requires Inv(world.state)
    modifies world
    ensures Inv(world.state) && Reads(old(world.state), world.state)
    ensures world.quiet ==> SameCheckout(old(world.state), world.state)
    ensures verdict.Good? ==> head in world.state.local
    ensures verdict.Good? && world.quiet ==> CheckoutAt(world.state, branch, head)
    ensures verdict == Good(AlreadyLanded) ==> HeldSince(world.state, Here(old(world.state)), branch, head)
    ensures verdict.Good? && verdict.value.MayPublish? ==>
              && ReadySince(world.state, Here(old(world.state)), branch, head)
              && |old(world.state).heard| <= k && Names(world.state, k, verdict.value.base, branch, head)
              && Reaches(world.state.store, verdict.value.target, head)
    // Everything heard decides the verdict.
    ensures Found(old(world.state), world.state, world.quiet, world.reliable, number, branch, head, replaced, verdict)
    ensures verdict.Refused? ==> verdict.status in {STALE_MAIN, HEAD_CHANGED, NOT_READY, MERGE_ERROR}
    ensures !verdict.Stopped?
  {
    k := 0;
    if number <= 0 || branch == "" || replaced == Some(head) {
      return Refused(MERGE_ERROR), k;
    }
    var checked := CheckCheckout(world, branch, head);
    if !checked.Good? {
      return checked.PropagateFailure(), k;
    }
    var pr: Step<PullRequest>;
    ghost var waits: nat;
    pr, waits := ReadPullRequest(world, replaced);
    if !pr.Good? {
      return pr.PropagateFailure(), k;
    }
    verdict, k := Assess(world, pr.value, branch, head, old(world.state), number, replaced);
  }

  /** The checks on the accepted answer and on the refs of the target it names. */
  method Assess(world: World, pr: PullRequest, branch: string, head: nat, ghost before: State, ghost number: int,
                ghost replaced: Option<nat>)
    returns (verdict: Step<Verdict>, ghost k: nat)
    requires Inv(world.state) && before.moments != [] && Reads(before, world.state)
    requires head in world.state.local && !BadCall(number, branch, head, replaced)
    requires |world.state.heard| > |before.heard| && world.state.heard[|world.state.heard| - 1] == Told(Record(pr))
    requires OnlyStale(world.state.heard, |before.heard|, |world.state.heard| - 1, replaced)
    modifies world
    ensures Inv(world.state) && Reads(old(world.state), world.state)
    ensures world.quiet ==> SameCheckout(old(world.state), world.state)
    ensures head in world.state.local
    ensures verdict == Good(AlreadyLanded) ==> HeldSince(world.state, Here(before), branch, head)
    ensures verdict.Good? && verdict.value.MayPublish? ==>
              && ReadySince(world.state, Here(before), branch, head)
              && |before.heard| <= k && Names(world.state, k, verdict.value.base, branch, head)
              && Reaches(world.state.store, verdict.value.target, head)
    ensures Found(before, world.state, world.quiet, world.reliable, number, branch, head, replaced, verdict)
    ensures verdict.Refused? ==> verdict.status in {STALE_MAIN, HEAD_CHANGED, NOT_READY, MERGE_ERROR}
    ensures !verdict.Stopped?
  {
    k := |world.state.heard| - 1;
    if !Acceptable(pr, branch, head) {
      return Refused(RefusalFor(pr, branch, head)), k;
    }
    verdict := CompareRefs(world, pr, branch, head);
    VerdictMeans(world.state, Here(before), k, pr, branch, head, world.reliable, verdict);
  }

  // ---------------------------------------------------------------- publication

  /** A commit that publication may move the target to. */
  ghost predicate CandidateFor(state: State, candidate: nat, target: nat, head: nat)
    requires Inv(state)
  {
    && head < |state.store| && candidate < |state.store|
    && state.store[candidate] == Commit(state.store[head].tree, [target, head])
    && Reaches(state.store, target, head)
  }

  lemma CandidateIsStable(before: State, after: State, candidate: nat, target: nat, head: nat)
    requires Inv(before) && Inv(after) && Evolves(before, after) && CandidateFor(before, candidate, target, head)
    ensures CandidateFor(after, candidate, target, head)
  {
    ReachesIsStable(before.store, after.store, target, head);
  }

  /** This caller asked at most for one commit to be made. */
  ghost predicate AtMostCreates(before: State, after: State, target: nat, head: nat) {
    && Evolves(before, after) && after.mine == before.mine && after.heard == before.heard
    && (after.acts == before.acts
        || (head < |before.store| && after.acts == before.acts + [Creating(before.store[head].tree, [target, head])]))
  }

  /** Have the forge make the merge commit, and accept only the exact gated tree and parents. */
  method MakeCandidate(world: World, target: nat, head: nat) returns (candidate: Step<nat>)
    requires Inv(world.state) && head in world.state.local && Reaches(world.state.store, target, head)
    modifies world
    ensures Inv(world.state) && AtMostCreates(old(world.state), world.state, target, head)
    ensures world.quiet ==> SameCheckout(old(world.state), world.state)
    ensures candidate.Good? ==> CandidateFor(world.state, candidate.value, target, head)
    ensures candidate.Good? ==> |world.state.acts| == |old(world.state).acts| + 1
    ensures world.state.acts == old(world.state).acts ==> candidate == Refused(MERGE_ERROR) && !world.reliable
    ensures candidate.Refused? ==> candidate.status == PUBLISH_FAILED || candidate.status == MERGE_ERROR
    ensures !candidate.Stopped?
  {
    ReachesIsBelow(world.state.store, target, head);
    var _ :- world.Command();
    var tree := world.state.store[head].tree;
    var created :- world.CreateMergeCommit(tree, [target, head]);
    if created.parents != [target, head] || created.tree != tree {
      return Refused(MERGE_ERROR);
    }
    ReachesIsStable(old(world.state).store, world.state.store, target, head);
    return Good(created.sha);
  }

  ghost predicate HeldFrom(state: State, from: nat, base: string, head: nat)
    requires Inv(state)
  {
    exists i :: from <= i && HeldAt(state, i, base, head)
  }

  /** Update both refs, and on an error decide by one re-read what happened. */
  method MoveTarget(world: World, branch: string, head: nat, base: string, target: nat, candidate: nat)
    returns (landed: Step<()>, ghost attempt: Attempt)
    requires Inv(world.state) && CandidateFor(world.state, candidate, target, head)
    modifies world
    ensures Inv(world.state)
    ensures world.quiet ==> SameCheckout(old(world.state), world.state)
    ensures attempt.base == base && attempt.target == target && attempt.candidate == candidate
    ensures AttemptOk(world.state, |old(world.state).moments| - 1, attempt, branch, head)
    ensures Attempted(old(world.state), world.state, attempt, branch, head)
              && Concluded(world.state, attempt, branch, head, landed)
    ensures landed.Good? <==> Confirmed(attempt)
    ensures landed.Good? ==> HeldFrom(world.state, |old(world.state).moments| - 1, base, head)
    ensures landed.Refused? ==> landed.status in {STALE_MAIN, HEAD_CHANGED, NOT_READY, PUBLISH_FAILED, MERGE_ERROR}
    ensures !landed.Stopped?
  {
    var replied: bool;
    ghost var applied: Option<nat>;
    replied, applied := world.UpdateRefs(base, target, candidate, branch, head);
    CandidateIsStable(old(world.state), world.state, candidate, target, head);
    attempt := Attempt(base, target, candidate, replied, applied, None);
    if replied {
      LandedHolds(world.state, applied.value, base, candidate, target, head);
      return Good(()), attempt;
    }
    landed, attempt := LookAgain(world, branch, attempt, target, candidate, base, head, |old(world.state).moments| - 1);
  }

  /** The one look that follows an update without a reply. */
  method LookAgain(world: World, branch: string, ghost tried: Attempt, target: nat, candidate: nat, base: string,
                   head: nat, ghost since: nat)
    returns (landed: Step<()>, ghost attempt: Attempt)
    requires Inv(world.state) && AttemptOk(world.state, since, tried, branch, head) && since < |world.state.moments|
    requires tried.base == base && tried.target == target && tried.candidate == candidate && !tried.replied
              && tried.reread.None?
    modifies world
    ensures Inv(world.state) && Reads(old(world.state), world.state)
    ensures |world.state.heard| == |old(world.state).heard| + 1
    ensures world.quiet ==> SameCheckout(old(world.state), world.state)
    ensures attempt == tried.(reread := attempt.reread)
    ensures AttemptOk(world.state, since, attempt, branch, head)
              && Concluded(world.state, attempt, branch, head, landed)
    ensures landed.Good? <==> Confirmed(attempt)
    ensures landed.Good? ==> HeldFrom(world.state, since, base, head)
    ensures landed.Refused? ==> landed.status in {STALE_MAIN, HEAD_CHANGED, NOT_READY, PUBLISH_FAILED, MERGE_ERROR}
    ensures !landed.Stopped?
  {
    var again := world.RemoteRefs(base, branch, false);
    landed := Aftermath(again, target, candidate, head);
    AttemptIsStable(old(world.state), world.state, since, tried, branch, head);
    attempt := tried;
    if again.Good? {
      attempt := attempt.(reread := Some(Look(|world.state.moments| - 1, again.value.target)));
      if landed.Good? {
        LandedHolds(world.state, |world.state.moments| - 1, base, candidate, target, head);
      }
    }
  }

  /** At most one commit was asked for, and then one update tried. */
  ghost predicate Publishes(start: seq<Act>, acts: seq<Act>, attempt: Option<Attempt>, branch: string, head: nat) {
    && start <= acts
    && (acts != start ==> acts[|start|].Creating?)
    && if attempt.None? then |acts| <= |start| + 1
       else |acts| == |start| + 2 && acts[|start| + 1] == UpdateOf(attempt.value, branch, head)
  }

  function Applied(attempt: Option<Attempt>): seq<nat> {
    if attempt.Some? then Moments(attempt.value.applied) else []
  }

  /** What `execute` did: it began, and unless it only observed it may have had a commit made and tried one update. */
  ghost predicate Executed(before: State, after: State, observeOnly: bool, head: nat, replaced: Option<nat>,
                           branch: string,
                           attempt: Option<Attempt>)
  {
    var began := before.acts + [Checking(observeOnly, head, replaced)];
    && Evolves(before, after)
    && after.mine == before.mine + Applied(attempt)
    && Publishes(began, after.acts, attempt, branch, head)
    && (observeOnly ==> after.acts == began)
  }

  /** A call that changed nothing ends as its checks say: landed already, or refused, or, where it only observes,
      stopped before the first change. */
  ghost predicate FoundOut(before: State, after: State, quiet: bool, reliable: bool, number: int, branch: string,
                           head: nat, replaced: Option<nat>, observeOnly: bool, exit: Step<()>)
    requires Inv(after)
  {
    exists verdict: Step<Verdict> ::
      && Found(before, after, quiet, reliable, number, branch, head, replaced, verdict)
      && exit == EndOf(verdict) && (exit.Stopped? ==> observeOnly)
  }

  ghost function EndOf(verdict: Step<Verdict>): Step<()> {
    match verdict
    case Good(AlreadyLanded) => Good(())
    case Good(MayPublish(_, _)) => Stopped
    case Refused(status) => Refused(status)
    case Stopped => Stopped
  }

  /** `execute`, with the real publisher or with the one that stops at the first change (`preflight`). */
  method Execute(world: World, observeOnly: bool, number: int, branch: string, head: nat, replaced: Option<nat>)
    returns (exit: Step<()>, ghost attempt: Option<Attempt>)
    requires Inv(world.state)
    modifies world
    ensures Inv(world.state)
    ensures world.quiet ==> SameCheckout(old(world.state), world.state)
    // What the call did is exactly this; a validation-only run changes nothing.
    ensures Executed(old(world.state), world.state, observeOnly, head, replaced, branch, attempt)
    // Status 0: at some instant of the call the target that the forge named held the gated head.
    ensures exit.Good? ==> HeldSince(world.state, Here(old(world.state)), branch, head)
    // A validation-only run stops only where the real one would publish.
    ensures exit.Stopped? ==> observeOnly && ReadySince(world.state, Here(old(world.state)), branch, head)
    ensures exit.Stopped? || exit.Good? ==> head in world.state.local
    ensures (exit.Stopped? || exit.Good?) && world.quiet ==> CheckoutAt(world.state, branch, head)
    // Whatever took effect is one landing of exactly this head onto a target that the forge named for it.
    ensures attempt.Some? ==> AttemptOk(world.state, |old(world.state).moments| - 1, attempt.value, branch, head)
    ensures attempt.Some? ==> NamedSince(world.state, Here(old(world.state)), attempt.value.base, branch, head)
    // Of an update the status is 0 exactly when the reply arrived or the one re-read saw the candidate.
    ensures attempt.Some? ==> Concluded(world.state, attempt.value, branch, head, exit)
    ensures attempt.Some? ==> (exit.Good? <==> Confirmed(attempt.value))
    ensures exit.Refused? ==> exit.status in {STALE_MAIN, HEAD_CHANGED, NOT_READY, PUBLISH_FAILED, MERGE_ERROR}
    ensures observeOnly ==> exit != Refused(PUBLISH_FAILED)
    ensures |world.state.acts| == |old(world.state).acts| + 2 ==>
              exit == Refused(PUBLISH_FAILED) || exit == Refused(MERGE_ERROR)
    // Where nothing was changed, what was heard decides.
    ensures |world.state.acts| == |old(world.state).acts| + 1 ==>
              (exit == Refused(MERGE_ERROR) && !world.reliable && !observeOnly)
              || FoundOut(old(world.state), world.state, world.quiet, world.reliable, number, branch, head, replaced,
                          observeOnly, exit)
  {
    attempt := None;
    ghost var since := Here(world.state);
    world.Note(Checking(observeOnly, head, replaced));
    ghost var began := world.state;
    var verdict: Step<Verdict>;
    ghost var k: nat;
    verdict, k := Validate(world, number, branch, head, replaced);
    assert Found(old(world.state), world.state, world.quiet, world.reliable, number, branch, head, replaced, verdict);
    if !verdict.Good? {
      return verdict.PropagateFailure(), None;
    }
    if verdict.value.AlreadyLanded? {
      return Good(()), None;
    }
    if observeOnly {
      return Stopped, None;
    }
    exit, attempt := Publish(world, branch, head, verdict.value.base, verdict.value.target, since, k);
    assert NamedSince(world.state, since, verdict.value.base, branch, head);
  }

  /** Everything of `execute` that changes something. */
  method Publish(world: World, branch: string, head: nat, base: string, target: nat, ghost since: Mark, ghost k: nat)
    returns (exit: Step<()>, ghost attempt: Option<Attempt>)
    requires Inv(world.state) && head in world.state.local && Reaches(world.state.store, target, head)
    requires since.moment < |world.state.moments| && since.heard <= k && Names(world.state, k, base, branch, head)
    modifies world
    ensures Inv(world.state) && Evolves(old(world.state), world.state)
    ensures world.quiet ==> SameCheckout(old(world.state), world.state)
    ensures world.state.mine == old(world.state).mine + Applied(attempt)
    ensures Publishes(old(world.state).acts, world.state.acts, attempt, branch, head)
    ensures exit.Good? ==> attempt.Some? && HeldSince(world.state, since, branch, head)
    ensures Names(world.state, k, base, branch, head)
    ensures attempt.Some? ==>
              AttemptOk(world.state, since.moment, attempt.value, branch, head) && attempt.value.base == base
    ensures attempt.Some? ==>
              Concluded(world.state, attempt.value, branch, head, exit) && (exit.Good? <==> Confirmed(attempt.value))
    ensures exit.Refused? ==> exit.status in {STALE_MAIN, HEAD_CHANGED, NOT_READY, PUBLISH_FAILED, MERGE_ERROR}
    ensures world.state.acts == old(world.state).acts ==> exit == Refused(MERGE_ERROR) && !world.reliable
    ensures |world.state.acts| == |old(world.state).acts| + 1 ==>
              exit == Refused(PUBLISH_FAILED) || exit == Refused(MERGE_ERROR)
    ensures !exit.Stopped?
  {
    attempt := None;
    var candidate := MakeCandidate(world, target, head);
    if !candidate.Good? {
      return candidate.PropagateFailure(), None;
    }
    ghost var made := world.state;
    ghost var tried: Attempt;
    exit, tried := MoveTarget(world, branch, head, base, target, candidate.value);
    attempt := Some(tried);
    if exit.Good? {
      HeldThere(world.state, since, |made.moments| - 1, k, base, branch, head);
    }
    AttemptEarlier(world.state, since.moment, |made.moments| - 1, tried, branch, head);
  }

  lemma HeldThere(state: State, since: Mark, from: nat, k: nat, base: string, branch: string, head: nat)
    requires Inv(state) && since.moment <= from && since.heard <= k && Names(state, k, base, branch, head)
              && HeldFrom(state, from, base, head)
    ensures HeldSince(state, since, branch, head)
  {
    var i :| from <= i && HeldAt(state, i, base, head);
    assert since.moment <= i && since.heard <= k && Names(state, k, base, branch, head) && HeldAt(state, i, base, head);
  }
}
