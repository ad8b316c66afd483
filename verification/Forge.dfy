/** The shared world a landing works in: the remote's commits and refs, the local repository and its
    checkout, and everybody else who changes any of them between two observations. */
module Forge {

  import opened Outcomes
  import opened Commits

  const STALE_MAIN: nat := 75
  const HEAD_CHANGED: nat := 76
  const NOT_READY: nat := 77
  const PUBLISH_FAILED: nat := 78
  const MERGE_ERROR: nat := 79
  const AVOIDED: nat := 80

  /** A step that may refuse with an exit status, or stop at the boundary of a validation-only run. */
  datatype Step<+T> = Good(value: T) | Refused(status: nat) | Stopped {

    predicate IsFailure() { !Good? }

    function PropagateFailure<U>(): Step<U>
      requires !Good?
    {
      if Stopped? then Stopped else Refused(status)
    }

    function Extract(): T
      requires Good?
    {
      value
    }
  }

  // ---------------------------------------------------------------- history of the remote refs

  datatype Cause =
    | Start
    | Elsewhere
    | Landed(base: string, branch: string, gated: nat)
    | Pushed(branch: string, previous: nat)

  /** The remote refs after one change, and what changed them. */
  datatype Moment = Moment(refs: map<string, nat>, cause: Cause)

  /** A landing moves exactly the target, to a commit whose first parent is the value it replaced, whose
      second parent is the gated head, and whose tree is the gated tree; the replaced value was already
      part of what was gated, and the request branch still held the gated head. */
  ghost predicate LandedOk(store: Store, before: map<string, nat>, after: Moment)
    requires WellFormed(store) && after.cause.Landed?
  {
    var base, branch, gated := after.cause.base, after.cause.branch, after.cause.gated;
    && base in before && branch in before && before[branch] == gated && base != branch
    && base in after.refs && after.refs == before[base := after.refs[base]]
    && var target, candidate := before[base], after.refs[base];
       && gated < |store| && candidate < |store|
       && store[candidate] == Commit(store[gated].tree, [target, gated])
       && Reaches(store, target, gated)
  }

  /** A synchronization moves exactly the request branch, to a merge on top of the head it replaced. */
  ghost predicate PushedOk(store: Store, before: map<string, nat>, after: Moment)
    requires after.cause.Pushed?
  {
    var branch, previous := after.cause.branch, after.cause.previous;
    && branch in before && before[branch] == previous
    && branch in after.refs && after.refs == before[branch := after.refs[branch]]
    && after.refs[branch] < |store| && |store[after.refs[branch]].parents| == 2
       && store[after.refs[branch]].parents[0] == previous
  }

  ghost predicate CauseOk(store: Store, before: map<string, nat>, after: Moment)
    requires WellFormed(store)
  {
    match after.cause
    case Landed(_, _, _) => LandedOk(store, before, after)
    case Pushed(_, _) => PushedOk(store, before, after)
    case Elsewhere => true
    case Start => false
  }

  ghost predicate RefsExist(store: Store, refs: map<string, nat>) {
    forall name :: name in refs ==> refs[name] < |store|
  }

  ghost predicate HistoryOk(store: Store, moments: seq<Moment>)
    requires WellFormed(store)
  {
    && moments != []
    && (forall i :: 0 <= i < |moments| ==> RefsExist(store, moments[i].refs))
    && (forall i :: 0 < i < |moments| ==> CauseOk(store, moments[i - 1].refs, moments[i]))
  }

  lemma CauseIsStable(store: Store, more: Store, before: map<string, nat>, after: Moment)
    requires WellFormed(store) && WellFormed(more) && store <= more && CauseOk(store, before, after)
    ensures CauseOk(more, before, after)
  {
    if after.cause.Landed? {
      ReachesIsStable(store, more, before[after.cause.base], after.cause.gated);
    }
  }

  /** New commits leave the history as it was. */
  lemma HistoryIsStable(store: Store, more: Store, moments: seq<Moment>)
    requires WellFormed(store) && WellFormed(more) && store <= more && HistoryOk(store, moments)
    ensures HistoryOk(more, moments)
  {
    forall i | 0 < i < |moments|
      ensures CauseOk(more, moments[i - 1].refs, moments[i])
    {
      CauseIsStable(store, more, moments[i - 1].refs, moments[i]);
    }
  }

  /** The target exists throughout, and everybody outside the protocol only fast-forwards it. */
  ghost predicate OnlyAdvances(store: Store, moments: seq<Moment>, base: string, i: nat, j: nat)
    requires WellFormed(store) && i <= j < |moments|
  {
    && (forall k :: i <= k <= j ==> base in moments[k].refs)
    && (forall k :: i < k <= j && moments[k].cause == Elsewhere ==>
        Reaches(store, moments[k - 1].refs[base], moments[k].refs[base]))
  }

  /** However many landings and pushes interleave, no commit the target ever held is dropped from it. */
  lemma {:induction false} TargetKeepsEverything(store: Store, moments: seq<Moment>, base: string, i: nat, j: nat)
    requires WellFormed(store) && HistoryOk(store, moments) && i <= j < |moments|
    requires OnlyAdvances(store, moments, base, i, j)
    ensures Reaches(store, moments[i].refs[base], moments[j].refs[base])
    decreases j
  {
    assert RefsExist(store, moments[i].refs);
    if i < j {
      TargetKeepsEverything(store, moments, base, i, j - 1);
      var before, after := moments[j - 1].refs, moments[j];
      assert RefsExist(store, before);
      assert CauseOk(store, before, after);
      if after.cause.Landed? && after.cause.base == base {
        MergeReaches(store, after.refs[base], before[base], after.cause.gated, before[base]);
      } else if after.cause.Pushed? && after.cause.branch == base {
        var parents := store[after.refs[base]].parents;
        assert Reaches(store, before[base], parents[0]);
      }
      ReachesIsTransitive(store, moments[i].refs[base], before[base], after.refs[base]);
    }
  }

  // ---------------------------------------------------------------- what this caller hears and does

  /** What one forge request answers about a pull request. `wellNamed` says that its base is a valid branch name. */
  datatype PullRequest = PullRequest(merged: bool, draft: bool, base: string, branch: string, head: nat,
                                     sameRepository: bool, wellNamed: bool)

  /** A malformed record may still name a base branch. */
  datatype MetadataAnswer = Unreadable | Malformed(named: Option<string>) | NeitherOpenNorMerged(base: string)
      | Record(pr: PullRequest)

  datatype Observed = Observed(target: nat, branch: Option<nat>)

  /** One answer of the forge, or one look at both refs and the moment of that look. */
  datatype Heard =
    | Told(answer: MetadataAnswer)
    | Saw(moment: nat, base: string, branch: string, observed: Step<Observed>)

  datatype Phase = PreflightPhase | GatingPhase | GateFailedPhase(status: nat) | PublishingPhase

  /** Everything this caller does, in order. `applied` is the moment at which a change took effect. */
  datatype Act =
    | Checking(observeOnly: bool, head: nat, replaced: Option<nat>)
    | Creating(tree: nat, parents: seq<nat>)
    | Updating(base: string, before: nat, candidate: nat, branch: string, head: nat, replied: bool,
               applied: Option<nat>)
    | Synchronizing(head: nat)
    | Merging(made: Option<nat>)
    | Aborting
    | Resetting(head: nat)
    | Pushing(branch: string, expected: nat, merge: nat, replied: bool, applied: Option<nat>)
    | Recorded(previous: nat, next: nat)
    | Reported(phase: Phase)
    | Gate(seen: nat, clean: bool, status: nat)
    | Reused(head: nat)

  function Moments(applied: Option<nat>): seq<nat> {
    if applied.Some? then [applied.value] else []
  }

  // ---------------------------------------------------------------- world

  /** `branch` and `head` are what the checkout is on; `clean` says it has no local change. `mine` are the
      moments this caller made, and `heard` and `acts` what it was told and did. */
  datatype State = State(store: Store, refs: map<string, nat>, local: set<nat>, branch: Option<string>, head: nat,
                         clean: bool,
                         moments: seq<Moment>, mine: seq<nat>, heard: seq<Heard>, acts: seq<Act>)

  ghost predicate Inv(state: State) {
    && WellFormed(state.store)
    && ClosedUnderAncestry(state.store, state.local)
    && state.head in state.local
    && HistoryOk(state.store, state.moments)
    && state.moments[|state.moments| - 1].refs == state.refs
  }

  /** Commits, local objects, the history and the caller's own record only grow. */
  ghost predicate Evolves(before: State, after: State) {
    && before.store <= after.store && before.local <= after.local && before.moments <= after.moments
    && before.mine <= after.mine && before.heard <= after.heard && before.acts <= after.acts
  }

  /** This caller did nothing. */
  ghost predicate Reads(before: State, after: State) {
    Evolves(before, after) && after.mine == before.mine && after.acts == before.acts
  }

  /** This caller did nothing and was told nothing about the remote. */
  ghost predicate Silent(before: State, after: State) {
    Reads(before, after) && after.heard == before.heard
  }

  /** This caller did exactly this, without moving a ref. */
  ghost predicate Does(before: State, after: State, act: Act) {
    Evolves(before, after) && after.mine == before.mine && after.heard == before.heard
        && after.acts == before.acts + [act]
  }

  /** This caller did exactly this, and moved refs exactly at the moment named, if any. */
  ghost predicate Moves(before: State, after: State, act: Act, applied: Option<nat>) {
    Evolves(before, after) && after.mine == before.mine + Moments(applied) && after.heard == before.heard
        && after.acts == before.acts + [act]
  }

  ghost predicate SameCheckout(before: State, after: State) {
    before.branch == after.branch && before.head == after.head && before.clean == after.clean
  }

  /** The checkout is on this branch at this commit without local changes. */
  predicate CheckoutAt(state: State, branch: string, head: nat) {
    state.branch == Some(branch) && state.head == head && state.clean
  }

  datatype Created = Created(sha: nat, tree: nat, parents: seq<nat>)

  /** The base branch that an answer names. */
  function NamedBase(answer: MetadataAnswer): Option<string> {
    match answer
    case Unreadable => None
    case Malformed(named) => named
    case NeitherOpenNorMerged(base) => Some(base)
    case Record(pr) => Some(pr.base)
  }

  /** An open or merged request is taken as it is, any other readable one is status 77, and the rest is 79. */
  ghost predicate Understood(answer: MetadataAnswer, pr: Step<PullRequest>) {
    match answer
    case Unreadable => pr == Refused(MERGE_ERROR)
    case Malformed(_) => pr == Refused(MERGE_ERROR)
    case NeitherOpenNorMerged(_) => pr == Refused(NOT_READY)
    case Record(record) => pr == Good(record)
  }

  /** What `_remote_refs` makes of the refs it reads. */
  function RefsSeen(refs: map<string, nat>, base: string, branch: string, requireHead: bool): Step<Observed> {
    if base !in refs then Refused(NOT_READY)
    else if requireHead && branch !in refs then Refused(HEAD_CHANGED)
    else Good(Observed(refs[base], if branch in refs then Some(refs[branch]) else None))
  }

  class World {
    var state: State
    /** Nobody else touches this checkout. The remote is never quiet. */
    const quiet: bool
    /** No local command, no question about the remote refs and no callback fails. */
    const reliable: bool
    /** The heads that a receipt covers when this caller asks. */
    const receipts: set<nat>

    constructor (state: State, quiet: bool, reliable: bool, receipts: set<nat>)
      requires Inv(state)
      ensures this.state == state && this.quiet == quiet && this.reliable == reliable && this.receipts == receipts
    {
      this.state, this.quiet, this.reliable, this.receipts := state, quiet, reliable, receipts;
    }

    /** Anybody else may do anything to refs, objects and checkout that keeps the invariant: other
        landings are instances of this same protocol, and every other writer is unconstrained. */
    method Interfere()
      requires Inv(state)
      modifies this
      ensures Inv(state) && Silent(old(state), state)
      ensures quiet ==> SameCheckout(old(state), state)
    {
    }

    /** Others may act, and then a command runs; running it may fail. */
    method Command() returns (done: Step<()>)
      requires Inv(state)
      modifies this
      ensures Inv(state) && Silent(old(state), state)
      ensures quiet ==> SameCheckout(old(state), state)
      ensures done == Good(()) || (done == Refused(MERGE_ERROR) && !reliable)
    {
      Interfere();
      if !reliable {
        if * {
          return Refused(MERGE_ERROR);
        }
      }
      return Good(());
    }

    /** Keep a record of what this caller begins. */
    method Note(act: Act)
      requires Inv(state)
      modifies this
      ensures Inv(state) && state == old(state).(acts := old(state).acts + [act])
    {
      state := state.(acts := state.acts + [act]);
    }

    /** One metadata request. The forge may report anything, including a head that was replaced long ago. */
    method Metadata() returns (answer: MetadataAnswer)
      requires Inv(state)
      modifies this
      ensures Inv(state) && Reads(old(state), state) && state.heard == old(state).heard + [Told(answer)]
      ensures quiet ==> SameCheckout(old(state), state)
    {
      Interfere();
      answer := *;
      state := state.(heard := state.heard + [Told(answer)]);
    }

    /** `_metadata` over one request. */
    method ReadMetadata() returns (pr: Step<PullRequest>)
      requires Inv(state)
      modifies this
      ensures Inv(state) && Reads(old(state), state)
      ensures quiet ==> SameCheckout(old(state), state)
      ensures |state.heard| == |old(state).heard| + 1 && state.heard[|old(state).heard|].Told?
              && Understood(state.heard[|old(state).heard|].answer, pr)
    {
      var answer := Metadata();
      match answer
      case Unreadable => return Refused(MERGE_ERROR);
      case Malformed(_) => return Refused(MERGE_ERROR);
      case NeitherOpenNorMerged(_) => return Refused(NOT_READY);
      case Record(record) => return Good(record);
    }

    /** `_remote_refs`: one observation of both refs. */
    method RemoteRefs(base: string, branch: string, requireHead: bool) returns (observed: Step<Observed>)
      requires Inv(state)
      modifies this
      ensures Inv(state) && Reads(old(state), state)
      ensures state.heard == old(state).heard + [Saw(|state.moments| - 1, base, branch, observed)]
      ensures quiet ==> SameCheckout(old(state), state)
      ensures observed == RefsSeen(state.refs, base, branch, requireHead)
              || (observed == Refused(MERGE_ERROR) && !reliable)
      // The refs are given as they are at this moment; a missing target is status 77, a missing required branch 76.
      ensures observed.Good? ==>
                && base in state.refs && observed.value.target == state.refs[base]
                && observed.value.branch == (if branch in state.refs then Some(state.refs[branch]) else None)
      ensures observed == Refused(NOT_READY) <==> !(observed == Refused(MERGE_ERROR)) && base !in state.refs
      ensures observed == Refused(HEAD_CHANGED) <==>
                !(observed == Refused(MERGE_ERROR)) && base in state.refs && requireHead && branch !in state.refs
    {
      var done := Command();
      observed := if done.Good? then RefsSeen(state.refs, base, branch, requireHead) else Refused(MERGE_ERROR);
      state := state.(heard := state.heard + [Saw(|state.moments| - 1, base, branch, observed)]);
    }

    /** `_is_ancestor`: Git answers from local objects, and an unknown object counts as no ancestor. */
    method IsAncestorLocally(ancestor: nat, descendant: nat) returns (answer: Step<bool>)
      requires Inv(state)
      modifies this
      ensures Inv(state) && Silent(old(state), state)
      ensures quiet ==> SameCheckout(old(state), state)
      ensures answer.Good? && descendant in state.local ==>
                (answer.value <==> Reaches(state.store, ancestor, descendant))
      ensures answer.Good? && answer.value ==> Reaches(state.store, ancestor, descendant)
      ensures answer.Refused? ==> answer.status == MERGE_ERROR && !reliable
      ensures !answer.Stopped?
    {
      var _ :- Command();
      if descendant in state.local && Reaches(state.store, ancestor, descendant) {
        AncestorsAreLocal(state.store, state.local, ancestor, descendant);
      }
      return Good(ancestor in state.local && descendant in state.local && Reaches(state.store, ancestor, descendant));
    }

    /** The forge's comparison: the merge base of the two commits is the first of them. */
    method IsAncestorRemotely(ancestor: nat, descendant: nat) returns (answer: Step<bool>)
      requires Inv(state)
      modifies this
      ensures Inv(state) && Silent(old(state), state)
      ensures quiet ==> SameCheckout(old(state), state)
      ensures answer.Good? ==> (answer.value <==> Reaches(state.store, ancestor, descendant))
      ensures answer.Refused? ==> answer.status == MERGE_ERROR && !reliable
      ensures !answer.Stopped?
    {
      var _ :- Command();
      return Good(Reaches(state.store, ancestor, descendant));
    }

    /** The forge makes a commit, or hands back any commit it likes; its record of that commit is true. */
    method CreateMergeCommit(tree: nat, parents: seq<nat>) returns (created: Step<Created>)
      requires Inv(state) && forall k :: 0 <= k < |parents| ==> parents[k] < |state.store|
      modifies this
      ensures Inv(state) && Does(old(state), state, Creating(tree, parents))
      ensures quiet ==> SameCheckout(old(state), state)
      ensures created.Good? ==>
                && created.value.sha < |state.store|
                && state.store[created.value.sha] == Commit(created.value.tree, created.value.parents)
      ensures created.Refused? ==> created.status == PUBLISH_FAILED || created.status == MERGE_ERROR
      ensures !created.Stopped?
    {
      Note(Creating(tree, parents));
      Interfere();
      if * {
        return Refused(PUBLISH_FAILED);
      } else if * {
        return Refused(MERGE_ERROR);
      }
      var other: int := *;
      if 0 <= other < |state.store| {
        return Good(Created(other, state.store[other].tree, state.store[other].parents));
      }
      var more := state.store + [Commit(tree, parents)];
      HistoryIsStable(state.store, more, state.moments);
      state := state.(store := more);
      return Good(Created(|more| - 1, tree, parents));
    }

    /** The atomic two-ref update. It takes effect only if both refs still hold the named values and the
        new target descends from the old one; the reply may be lost in either case. */
    method UpdateRefs(base: string, before: nat, candidate: nat, branch: string, head: nat)
      returns (replied: bool, ghost applied: Option<nat>)
      requires Inv(state) && head < |state.store| && candidate < |state.store|
      requires state.store[candidate] == Commit(state.store[head].tree, [before, head])
                && Reaches(state.store, before, head)
      modifies this
      ensures Inv(state) && Moves(old(state), state, Updating(base, before, candidate, branch, head, replied, applied),
                                  applied)
      ensures quiet ==> SameCheckout(old(state), state)
      ensures replied ==> applied.Some?
      ensures applied.Some? ==>
                && |old(state).moments| <= applied.value < |state.moments|
                && state.moments[applied.value].cause == Landed(base, branch, head)
                && base in state.moments[applied.value - 1].refs
                   && state.moments[applied.value - 1].refs[base] == before
                && base in state.moments[applied.value].refs && state.moments[applied.value].refs[base] == candidate
    {
      Interfere();
      var landed: bool, lost: bool := *, *;
      landed := landed && base != branch && base in state.refs && state.refs[base] == before && branch in state.refs
          && state.refs[branch] == head;
      replied := landed && !lost;
      var moment := if landed then Some(|state.moments|) else None;
      applied := moment;
      if landed {
        ReachesIsStable(old(state).store, state.store, before, head);
        MoveIsHistory(base, before, candidate, branch, head);
        state := state.(refs := state.refs[base := candidate],
                        moments := state.moments + [Moment(state.refs[base := candidate], Landed(base, branch, head))]);
      }
      state := state.(mine := state.mine + Moments(moment),
                      acts := state.acts + [Updating(base, before, candidate, branch, head, replied, moment)]);
    }

    /** Appending a landing keeps the history. */
    lemma MoveIsHistory(base: string, before: nat, candidate: nat, branch: string, head: nat)
      requires Inv(state) && head < |state.store| && candidate < |state.store| && base != branch
      requires state.store[candidate] == Commit(state.store[head].tree, [before, head])
                && Reaches(state.store, before, head)
      requires base in state.refs && state.refs[base] == before && branch in state.refs && state.refs[branch] == head
      ensures HistoryOk(state.store, state.moments
                        + [Moment(state.refs[base := candidate], Landed(base, branch, head))])
    {
      var moment := Moment(state.refs[base := candidate], Landed(base, branch, head));
      assert RefsExist(state.store, state.refs);
      assert LandedOk(state.store, state.refs, moment);
    }

    /** `git fetch` of one exact commit: the commit arrives with everything it descends from. */
    method Fetch(commit: nat) returns (done: Step<()>)
      requires Inv(state) && commit < |state.store|
      modifies this
      ensures Inv(state) && Silent(old(state), state)
      ensures quiet ==> SameCheckout(old(state), state)
      ensures done.Good? ==> commit in state.local
      ensures done.Refused? ==> (done.status == STALE_MAIN || done.status == MERGE_ERROR) && !reliable
      ensures !done.Stopped?
    {
      var _ :- Command();
      if !reliable {
        if * {
          return Refused(STALE_MAIN);
        }
      }
      AncestorsAreClosed(state.store, commit);
      state := state.(local := state.local + Ancestors(state.store, commit));
      return Good(());
    }

    /** `git fetch` of a branch, whose head is then called FETCH_HEAD. Somebody else who fetches into the
        same checkout replaces what that name stands for. */
    method FetchHead(base: string) returns (fetched: Step<nat>)
      requires Inv(state)
      modifies this
      ensures Inv(state) && Silent(old(state), state)
      ensures quiet ==> SameCheckout(old(state), state)
      ensures fetched.Good? ==> fetched.value in state.local
      ensures fetched.Good? && quiet ==> base in state.refs && state.refs[base] == fetched.value
      ensures fetched.Refused? ==> fetched.status == MERGE_ERROR && (reliable ==> base !in state.refs)
      ensures !fetched.Stopped?
    {
      var _ :- Command();
      if base !in state.refs {
        return Refused(MERGE_ERROR);
      }
      assert RefsExist(state.store, state.refs);
      var fetchHead := state.refs[base];
      AncestorsAreClosed(state.store, fetchHead);
      state := state.(local := state.local + Ancestors(state.store, fetchHead));
      if !quiet {
        var other: nat := *;
        if other in state.local {
          fetchHead := other;
        }
      }
      return Good(fetchHead);
    }

    /** The gate command may do anything, to this checkout too. It sees the checkout as it is when it starts. */
    method RunGate() returns (status: nat)
      requires Inv(state)
      modifies this
      ensures Inv(state) && |state.acts| == |old(state).acts| + 1
      ensures var gate := state.acts[|old(state).acts|];
              && Does(old(state), state, gate) && gate.Gate? && gate.status == status
              && (quiet ==> gate.seen == old(state).head && gate.clean == old(state).clean)
    {
      Interfere();
      status := *;
      Note(Gate(state.head, state.clean, status));
      var branch: Option<string>, dirty: bool, head: nat := *, *, *;
      if head in state.local {
        state := state.(branch := branch, head := head, clean := !dirty);
      }
    }

    /** `git merge --no-ff`. It makes a commit on top of HEAD unless HEAD already has the target; a
        failed merge leaves HEAD where it was and may leave the files in any condition. */
    method Merge(target: nat) returns (merged: Step<bool>)
      requires Inv(state) && target in state.local
      modifies this
      ensures Inv(state)
      ensures quiet ==> state.branch == old(state).branch
      ensures merged.Refused? ==>
                && merged.status == MERGE_ERROR && !reliable && Silent(old(state), state)
                && (quiet ==> SameCheckout(old(state), state))
      ensures merged == Good(false) ==>
                Does(old(state), state, Merging(None)) && (quiet ==> state.head == old(state).head)
      ensures merged == Good(true) ==> Does(old(state), state, Merging(Some(state.head)))
      ensures merged == Good(true) && quiet && !Reaches(old(state).store, target, old(state).head) ==>
                state.head != old(state).head
      ensures !merged.Stopped?
    {
      var _ :- Command();
      var dirty: bool := *;
      if * {
        state := state.(clean := !dirty);
        Note(Merging(None));
        return Good(false);
      }
      if quiet {
        ReachesIsStable(old(state).store, state.store, target, old(state).head);
      }
      if !Reaches(state.store, target, state.head) {
        var tree: nat := *;
        var more := state.store + [Commit(tree, [state.head, target])];
        HistoryIsStable(state.store, more, state.moments);
        state := state.(store := more, local := state.local + {|more| - 1}, head := |more| - 1);
      }
      state := state.(clean := !dirty, acts := state.acts + [Merging(Some(state.head))]);
      return Good(true);
    }

    /** `git merge --abort`, which may fail. */
    method AbortMerge() returns (done: Step<()>)
      requires Inv(state)
      modifies this
      ensures Inv(state)
      ensures if done.Good? then Does(old(state), state, Aborting) else Silent(old(state), state)
      ensures quiet ==> state.branch == old(state.branch) && state.head == old(state.head)
      ensures done == Good(()) || (done == Refused(MERGE_ERROR) && !reliable)
    {
      var _ :- Command();
      var dirty: bool := *;
      state := state.(clean := !dirty, acts := state.acts + [Aborting]);
      return Good(());
    }

    /** `git reset --hard`. */
    method Reset(head: nat) returns (done: Step<()>)
      requires Inv(state) && head in state.local
      modifies this
      ensures Inv(state)
      ensures done.Good? ==>
                Does(old(state), state, Resetting(head))
                && (quiet ==> state.branch == old(state.branch) && state.head == head)
      ensures !done.Good? ==> Silent(old(state), state) && (quiet ==> SameCheckout(old(state), state))
      ensures done == Good(()) || (done == Refused(MERGE_ERROR) && !reliable)
    {
      var _ :- Command();
      var dirty: bool := *;
      state := state.(head := head, clean := !dirty, acts := state.acts + [Resetting(head)]);
      return Good(());
    }

    /** `git push` with a lease: the branch moves only from the expected head, and the reply may be lost. */
    method Push(branch: string, expected: nat, merge: nat) returns (replied: Step<bool>, ghost applied: Option<nat>)
      requires Inv(state) && merge in state.local && |state.store[merge].parents| == 2
                && state.store[merge].parents[0] == expected
      modifies this
      ensures Inv(state)
      ensures quiet ==> SameCheckout(old(state), state)
      ensures replied.Refused? ==>
                replied.status == MERGE_ERROR && !reliable && applied.None? && Silent(old(state), state)
      ensures replied.Good? ==>
                Moves(old(state), state, Pushing(branch, expected, merge, replied.value, applied), applied)
      ensures replied == Good(true) ==> applied.Some?
      ensures applied.Some? ==>
                && |old(state).moments| <= applied.value < |state.moments|
                && state.moments[applied.value].cause == Pushed(branch, expected)
                && branch in state.moments[applied.value].refs && state.moments[applied.value].refs[branch] == merge
      ensures !replied.Stopped?
    {
      applied := None;
      replied := Refused(MERGE_ERROR);
      var started := Command();
      if !started.Good? {
        return;
      }
      var accepted: bool, lost: bool := *, *;
      accepted := accepted && branch in state.refs && state.refs[branch] == expected;
      var moment := if accepted then Some(|state.moments|) else None;
      applied := moment;
      if accepted {
        PushIsHistory(branch, expected, merge);
        state := state.(refs := state.refs[branch := merge],
                        moments := state.moments + [Moment(state.refs[branch := merge], Pushed(branch, expected))]);
      }
      state := state.(mine := state.mine + Moments(moment),
                      acts := state.acts + [Pushing(branch, expected, merge, accepted && !lost, moment)]);
      replied := Good(accepted && !lost);
    }

    /** Appending a push keeps the history. */
    lemma PushIsHistory(branch: string, expected: nat, merge: nat)
      requires Inv(state) && merge in state.local && |state.store[merge].parents| == 2
                && state.store[merge].parents[0] == expected
      requires branch in state.refs && state.refs[branch] == expected
      ensures HistoryOk(state.store, state.moments + [Moment(state.refs[branch := merge], Pushed(branch, expected))])
    {
      var moment := Moment(state.refs[branch := merge], Pushed(branch, expected));
      assert RefsExist(state.store, state.refs);
      assert PushedOk(state.store, state.refs, moment);
    }

    // -------------------------------------------------------------- callbacks, which may raise

    /** Report a phase to the coordinator. */
    method Report(phase: Phase) returns (accepted: bool)
      requires Inv(state)
      modifies this
      ensures Inv(state)
      ensures quiet ==> SameCheckout(old(state), state)
      ensures if accepted then Does(old(state), state, Reported(phase)) else Silent(old(state), state)
      ensures reliable ==> accepted
    {
      Interfere();
      accepted := *;
      accepted := accepted || reliable;
      if accepted {
        Note(Reported(phase));
      }
    }

    /** Record a replaced head durably. */
    method RecordHead(previous: nat, next: nat) returns (accepted: bool)
      requires Inv(state)
      modifies this
      ensures Inv(state)
      ensures quiet ==> SameCheckout(old(state), state)
      ensures if accepted then Does(old(state), state, Recorded(previous, next)) else Silent(old(state), state)
      ensures reliable ==> accepted
    {
      Interfere();
      accepted := *;
      accepted := accepted || reliable;
      if accepted {
        Note(Recorded(previous, next));
      }
    }

    /** Ask whether a receipt covers this exact head; `None` is an error. */
    method ReuseGate(head: nat) returns (covered: Option<bool>)
      requires Inv(state)
      modifies this
      ensures Inv(state)
      ensures quiet ==> SameCheckout(old(state), state)
      ensures if covered == Some(true) then Does(old(state), state, Reused(head)) else Silent(old(state), state)
      ensures covered.None? ==> !reliable
      ensures covered.Some? ==> (covered.value <==> head in receipts)
    {
      Interfere();
      covered := Some(head in receipts);
      if !reliable {
        if * {
          covered := None;
        }
      }
      if covered == Some(true) {
        Note(Reused(head));
      }
    }
  }
}
