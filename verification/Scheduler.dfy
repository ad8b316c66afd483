/** Lane selection and admission: which queued run starts next, and why it may. */
module Scheduler {

  import opened Outcomes

  /** A live run as the scheduler sees it. Repositories are numbered in the order of their
      identifiers; `sequence` is the submission order. */
  datatype Run = Run(id: string, repository: nat, worktree: nat, barrier: bool, sequence: nat, resources: map<string,
                     nat>)

  /** Live runs are loaded in submission order. */
  ghost predicate InOrder(runs: seq<Run>) {
    forall i, j :: 0 <= i < j < |runs| ==> runs[i].sequence < runs[j].sequence
  }

  // ---------------------------------------------------------------- blockers

  function Units(resources: map<string, nat>, name: string): nat {
    if name in resources then resources[name] else 0
  }

  function Allocated(active: seq<Run>, name: string): nat {
    if active == [] then 0 else Allocated(active[..|active| - 1], name) + Units(active[|active| - 1].resources, name)
  }

  /** Two runs of one lane that may not run together: two barriers, or a barrier and any run of its worktree. */
  predicate Conflicts(a: Run, b: Run) {
    a.repository == b.repository && (a.barrier || b.barrier) && ((a.barrier && b.barrier) || a.worktree == b.worktree)
  }

  /** Lanes are independent, and in one lane two plain runs never conflict, two barriers always do, and a barrier and a
      plain run exactly in one worktree. */
  lemma ConflictsMean(a: Run, b: Run)
    ensures Conflicts(a, b) <==> Conflicts(b, a)
    ensures a.repository != b.repository ==> !Conflicts(a, b)
    ensures !a.barrier && !b.barrier ==> !Conflicts(a, b)
    ensures a.repository == b.repository && a.barrier && b.barrier ==> Conflicts(a, b)
    ensures a.repository == b.repository && a.barrier && !b.barrier ==> (Conflicts(a, b) <==> a.worktree == b.worktree)
  {
  }

  /** Every requested resource still fits. */
  predicate Fits(run: Run, active: seq<Run>, capacities: map<string, nat>) {
    forall name :: name in run.resources ==> Allocated(active, name) + run.resources[name] <= Units(capacities, name)
  }

  /** `blocked_by` reports no reason for this queued run. */
  predicate Unblocked(run: Run, active: seq<Run>, queued: seq<Run>, capacities: map<string, nat>) {
    && (forall i :: 0 <= i < |active| ==> !Conflicts(run, active[i]))
    && (forall i :: 0 <= i < |queued| && queued[i].sequence < run.sequence ==> !Conflicts(run, queued[i]))
    && Fits(run, active, capacities)
  }

  /** A run of another repository affects this one only through what it has allocated: queued it changes nothing, and
      active it blocks exactly when a requested resource no longer fits. */
  lemma OtherLanesOnlyAllocate(run: Run, other: Run, active: seq<Run>, queued: seq<Run>, capacities: map<string, nat>)
    requires other.repository != run.repository
    ensures Unblocked(run, active, queued + [other], capacities) <==> Unblocked(run, active, queued, capacities)
    ensures Unblocked(run, active + [other], queued, capacities) <==>
              && Unblocked(run, active, queued, capacities)
              && forall name :: name in run.resources ==>
                   Allocated(active, name) + (if name in other.resources then other.resources[name] else 0)
                   + run.resources[name] <= (if name in capacities then capacities[name] else 0)
  {
    QueuedElsewhere(run, other, active, queued, capacities);
    assert (active + [other])[..|active|] == active;
    forall name
      ensures Allocated(active + [other], name)
              == Allocated(active, name) + if name in other.resources then other.resources[name] else 0
    {
    }
    if Unblocked(run, active + [other], queued, capacities) {
      forall i | 0 <= i < |active|
        ensures !Conflicts(run, active[i])
      {
        assert (active + [other])[i] == active[i];
      }
    }
  }

  lemma QueuedElsewhere(run: Run, other: Run, active: seq<Run>, queued: seq<Run>, capacities: map<string, nat>)
    requires other.repository != run.repository
    ensures Unblocked(run, active, queued + [other], capacities) <==> Unblocked(run, active, queued, capacities)
  {
    if Unblocked(run, active, queued + [other], capacities) {
      forall i | 0 <= i < |queued| && queued[i].sequence < run.sequence
        ensures !Conflicts(run, queued[i])
      {
        assert (queued + [other])[i] == queued[i];
      }
    }
  }

  /** What `validate_active` accepts. */
  ghost predicate ActiveValid(active: seq<Run>, capacities: map<string, nat>) {
    && (forall name :: Allocated(active, name) <= Units(capacities, name))
    && (forall i, j :: 0 <= i < j < |active| ==> !Conflicts(active[i], active[j]))
  }

  /** Starting an unblocked run keeps the active set valid, so `validate_active` cannot fail on it. */
  lemma AdmissionKeepsValid(run: Run, active: seq<Run>, queued: seq<Run>, capacities: map<string, nat>)
    requires ActiveValid(active, capacities) && Unblocked(run, active, queued, capacities)
    ensures ActiveValid(active + [run], capacities)
  {
    var next := active + [run];
    assert next[..|active|] == active;
    forall name
      ensures Allocated(next, name) <= Units(capacities, name)
    {
      assert Allocated(next, name) == Allocated(active, name) + Units(run.resources, name);
    }
  }

  lemma {:induction false} AllocationShrinks(active: seq<Run>, index: nat, name: string)
    requires index < |active|
    ensures Allocated(active[..index] + active[index + 1..], name)
              + Units(active[index].resources, name) == Allocated(active, name)
  {
    var last := |active| - 1;
    if index == last {
      assert active[..index] + active[index + 1..] == active[..last];
    } else {
      var rest := active[..last];
      AllocationShrinks(rest, index, name);
      assert rest[..index] == active[..index];
      var removed := active[..index] + active[index + 1..];
      assert removed[..|removed| - 1] == rest[..index] + rest[index + 1..];
    }
  }

  /** Finishing any active run keeps the rest valid. */
  lemma FinishKeepsValid(active: seq<Run>, index: nat, capacities: map<string, nat>)
    requires index < |active| && ActiveValid(active, capacities)
    ensures ActiveValid(active[..index] + active[index + 1..], capacities)
  {
    forall name
      ensures Allocated(active[..index] + active[index + 1..], name) <= Units(capacities, name)
    {
      AllocationShrinks(active, index, name);
    }
  }

  // ---------------------------------------------------------------- selection

  /** Beyond the repository served last; before any selection every lane is. */
  predicate After(run: Run, last: Option<nat>) {
    last.None? || last.value < run.repository
  }

  ghost predicate Candidate(queued: seq<Run>, free: set<Run>, last: Option<nat>, run: Run) {
    run in queued && run in free
    && (After(run, last) || forall other :: other in queued && other in free ==> !After(other, last))
  }

  /** The earliest-submitted unblocked run beyond the repository served last, or, when no lane beyond
      it has one, the earliest unblocked run of all. */
  ghost predicate Selects(queued: seq<Run>, free: set<Run>, last: Option<nat>, chosen: Option<Run>) {
    match chosen
    case None => forall run :: run in queued ==> run !in free
    case Some(run) =>
      Candidate(queued, free, last, run)
      && forall other :: Candidate(queued, free, last, other) ==> run.sequence <= other.sequence
  }

  ghost function Free(active: seq<Run>, queued: seq<Run>, capacities: map<string, nat>): set<Run> {
    set run | run in queued && Unblocked(run, active, queued, capacities)
  }

  /** `heads` holds a run of `run`'s lane submitted no later than it. */
  ghost predicate Covered(heads: seq<Run>, run: Run) {
    exists head :: head in heads && head.repository == run.repository && head.sequence <= run.sequence
  }

  ghost predicate FreeAndQueued(heads: seq<Run>, queued: seq<Run>, free: set<Run>) {
    forall head :: head in heads ==> head in queued && head in free
  }

  ghost predicate OnePerLane(heads: seq<Run>) {
    forall i, j :: 0 <= i < j < |heads| ==> heads[i].repository != heads[j].repository
  }

  /** Exactly the first unblocked run of every lane, in submission order. */
  ghost predicate LaneHeads(queued: seq<Run>, free: set<Run>, heads: seq<Run>) {
    InOrder(heads) && OnePerLane(heads) && FreeAndQueued(heads, queued, free) && AllCovered(queued, free, heads)
  }

  /** A head is the first unblocked run of its lane, and the first unblocked run of a lane is a head. */
  lemma HeadsAreFirst(queued: seq<Run>, free: set<Run>, heads: seq<Run>, run: Run)
    requires LaneHeads(queued, free, heads) && InOrder(queued)
    ensures run in heads <==>
              && run in queued && run in free
              && forall other :: other in queued && other in free && other.repository == run.repository ==>
                                   run.sequence < other.sequence || other == run
  {
    if run in heads {
      forall other | other in queued && other in free && other.repository == run.repository
        ensures run.sequence < other.sequence || other == run
      {
        LaneIsCovered(queued, free, heads, run, other);
      }
    } else if run in queued && run in free {
      var k :| 0 <= k < |queued| && queued[k] == run;
      assert Covered(heads, queued[k]);
      var head :| head in heads && head.repository == run.repository && head.sequence <= run.sequence;
      assert head in queued && head in free && head != run;
    }
  }

  lemma LaneIsCovered(queued: seq<Run>, free: set<Run>, heads: seq<Run>, head: Run, other: Run)
    requires LaneHeads(queued, free, heads) && InOrder(queued) && head in heads
    requires other in queued && other in free && other.repository == head.repository
    ensures head.sequence < other.sequence || other == head
  {
    var k :| 0 <= k < |queued| && queued[k] == other;
    assert Covered(heads, queued[k]);
    var first :| first in heads && first.repository == other.repository && first.sequence <= other.sequence;
    SameLaneSameHead(heads, first, head);
    assert head in queued;
    if head.sequence == other.sequence {
      OrderDecides(queued, head, other);
    }
  }

  lemma SameLaneSameHead(heads: seq<Run>, a: Run, b: Run)
    requires OnePerLane(heads) && a in heads && b in heads && a.repository == b.repository
    ensures a == b
  {
    var i :| 0 <= i < |heads| && heads[i] == a;
    var j :| 0 <= j < |heads| && heads[j] == b;
  }

  lemma OrderDecides(queued: seq<Run>, a: Run, b: Run)
    requires InOrder(queued) && a in queued && b in queued && a.sequence == b.sequence
    ensures a == b
  {
    var i :| 0 <= i < |queued| && queued[i] == a;
    var j :| 0 <= j < |queued| && queued[j] == b;
  }

  lemma CoveredBy(heads: seq<Run>, head: Run, run: Run)
    requires head in heads && head.repository == run.repository && head.sequence <= run.sequence
    ensures Covered(heads, run)
  {
  }

  lemma CoveredGrows(heads: seq<Run>, more: seq<Run>, run: Run)
    requires Covered(heads, run) && forall head :: head in heads ==> head in more
    ensures Covered(more, run)
  {
    var head :| head in heads && head.repository == run.repository && head.sequence <= run.sequence;
    CoveredBy(more, head, run);
  }

  /** Every run of `runs` was submitted before `bound`. */
  ghost predicate Before(runs: seq<Run>, bound: nat) {
    forall i :: 0 <= i < |runs| ==> runs[i].sequence < bound
  }

  lemma SubsetIsBefore(heads: seq<Run>, prefix: seq<Run>, bound: nat)
    requires Before(prefix, bound) && forall head :: head in heads ==> head in prefix
    ensures Before(heads, bound)
  {
    forall i | 0 <= i < |heads|
      ensures heads[i].sequence < bound
    {
      assert heads[i] in prefix;
    }
  }

  lemma AppendInOrder(heads: seq<Run>, run: Run)
    requires InOrder(heads) && Before(heads, run.sequence)
    ensures InOrder(heads + [run])
  {
  }

  lemma AppendOnePerLane(heads: seq<Run>, run: Run)
    requires OnePerLane(heads) && run.repository !in LanesOf(heads)
    ensures OnePerLane(heads + [run])
  {
  }

  ghost predicate AllCovered(prefix: seq<Run>, free: set<Run>, heads: seq<Run>) {
    forall i :: 0 <= i < |prefix| && prefix[i] in free ==> Covered(heads, prefix[i])
  }

  lemma CoverageAdvances(prefix: seq<Run>, run: Run, free: set<Run>, heads: seq<Run>, more: seq<Run>)
    requires AllCovered(prefix, free, heads)
    requires more == heads || more == heads + [run]
    requires run in free ==> Covered(more, run)
    ensures AllCovered(prefix + [run], free, more)
  {
    forall i | 0 <= i < |prefix + [run]| && (prefix + [run])[i] in free
      ensures Covered(more, (prefix + [run])[i])
    {
      if i < |prefix| {
        assert Covered(heads, prefix[i]);
        CoveredGrows(heads, more, prefix[i]);
      }
    }
  }

  ghost function LanesOf(heads: seq<Run>): set<nat> {
    set head | head in heads :: head.repository
  }

  /** A queued run becomes a head when it is unblocked and its lane has none. */
  lemma HeadAdded(prefix: seq<Run>, run: Run, free: set<Run>, heads: seq<Run>)
    requires LaneHeads(prefix, free, heads) && Before(prefix, run.sequence) && run in free
              && run.repository !in LanesOf(heads)
    ensures LaneHeads(prefix + [run], free, heads + [run])
  {
    SubsetIsBefore(heads, prefix, run.sequence);
    AppendInOrder(heads, run);
    AppendOnePerLane(heads, run);
    CoveredBy(heads + [run], run, run);
    CoverageAdvances(prefix, run, free, heads, heads + [run]);
    SubsetGrows(heads, prefix, run, free);
  }

  lemma SubsetGrows(heads: seq<Run>, prefix: seq<Run>, run: Run, free: set<Run>)
    requires FreeAndQueued(heads, prefix, free)
    ensures FreeAndQueued(heads, prefix + [run], free)
    ensures run in free ==> FreeAndQueued(heads + [run], prefix + [run], free)
  {
  }

  /** Otherwise the heads so far still cover it. */
  lemma HeadsKept(prefix: seq<Run>, run: Run, free: set<Run>, heads: seq<Run>)
    requires LaneHeads(prefix, free, heads) && Before(prefix, run.sequence)
    requires run in free ==> run.repository in LanesOf(heads)
    ensures LaneHeads(prefix + [run], free, heads)
  {
    SubsetGrows(heads, prefix, run, free);
    if run in free {
      SubsetIsBefore(heads, prefix, run.sequence);
      var k :| 0 <= k < |heads| && heads[k].repository == run.repository;
      assert heads[k] in heads && heads[k].sequence < run.sequence;
      CoveredBy(heads, heads[k], run);
    }
    CoverageAdvances(prefix, run, free, heads, heads);
  }

  class Lanes {
    const capacities: map<string, nat>
    var lastRepository: Option<nat>

    constructor (capacities: map<string, nat>)
      ensures this.capacities == capacities && lastRepository == None
    {
      this.capacities, lastRepository := capacities, None;
    }

    /** The first unblocked run of each lane. */
    method CollectHeads(active: seq<Run>, queued: seq<Run>) returns (heads: seq<Run>)
      requires InOrder(queued)
      ensures LaneHeads(queued, Free(active, queued, capacities), heads)
    {
      heads := [];
      var seen: set<nat> := {};
      ghost var free := Free(active, queued, capacities);
      for i := 0 to |queued|
        invariant LaneHeads(queued[..i], free, heads)
        invariant seen == LanesOf(heads)
      {
        var run := queued[i];
        assert queued[..i + 1] == queued[..i] + [run];
        if run.repository !in seen && Unblocked(run, active, queued, capacities) {
          HeadAdded(queued[..i], run, free, heads);
          seen := seen + {run.repository};
          heads := heads + [run];
        } else {
          HeadsKept(queued[..i], run, free, heads);
        }
      }
      assert queued[..|queued|] == queued;
    }

    /** `next_admissible`: rotate the lane heads to start beyond the repository served last. */
    method NextAdmissible(active: seq<Run>, queued: seq<Run>) returns (chosen: Option<Run>)
      requires InOrder(queued)
      ensures Selects(queued, Free(active, queued, capacities), lastRepository, chosen)
    {
      var heads := CollectHeads(active, queued);
      var after, before := heads, [];
      if lastRepository.Some? {
        after, before := Partition(heads, lastRepository);
      }
      RotationSelects(queued, Free(active, queued, capacities), lastRepository, heads, after, before);
      heads := after + before;
      chosen := if heads == [] then None else Some(heads[0]);
    }

    /** One admission of `pump_once`. The selected run leaves the queue whether or not its worker starts. */
    method Admit(active: seq<Run>, queued: seq<Run>, started: bool) returns (chosen: Option<Run>, nowActive: seq<Run>)
      requires InOrder(queued) && ActiveValid(active, capacities)
      modifies this
      ensures Selects(queued, Free(active, queued, capacities), old(lastRepository), chosen)
      ensures lastRepository == if chosen.Some? then Some(chosen.value.repository) else old(lastRepository)
      ensures nowActive == if chosen.Some? && started then active + [chosen.value] else active
      ensures ActiveValid(nowActive, capacities)
    {
      chosen := NextAdmissible(active, queued);
      nowActive := active;
      if chosen.Some? {
        AdmissionKeepsValid(chosen.value, active, queued, capacities);
        if started {
          nowActive := active + [chosen.value];
        }
        lastRepository := Some(chosen.value.repository);
      }
    }
  }

  /** Split the heads at the repository served last, keeping their order. */
  method Partition(heads: seq<Run>, last: Option<nat>) returns (after: seq<Run>, before: seq<Run>)
    requires InOrder(heads)
    ensures InOrder(after) && InOrder(before)
    ensures forall head :: head in after <==> head in heads && After(head, last)
    ensures forall head :: head in before <==> head in heads && !After(head, last)
  {
    after, before := [], [];
    for i := 0 to |heads|
      invariant InOrder(after) && InOrder(before)
      invariant forall head :: head in after <==> head in heads[..i] && After(head, last)
      invariant forall head :: head in before <==> head in heads[..i] && !After(head, last)
    {
      var head := heads[i];
      assert heads[..i + 1] == heads[..i] + [head];
      assert forall other :: other in heads[..i] ==> other.sequence < head.sequence;
      if After(head, last) {
        after := after + [head];
      } else {
        before := before + [head];
      }
    }
    assert heads[..|heads|] == heads;
  }

  lemma FrontIsEarliest(runs: seq<Run>, run: Run)
    requires InOrder(runs) && run in runs
    ensures runs[0].sequence <= run.sequence
  {
  }

  /** Putting the heads beyond the last repository first makes the front head the selected run. */
  lemma RotationSelects(queued: seq<Run>, free: set<Run>, last: Option<nat>, heads: seq<Run>, after: seq<Run>,
                        before: seq<Run>)
    requires LaneHeads(queued, free, heads) && InOrder(after) && InOrder(before)
    requires forall head :: head in after <==> head in heads && After(head, last)
    requires forall head :: head in before <==> head in heads && !After(head, last)
    ensures Selects(queued, free, last, if after + before == [] then None else Some((after + before)[0]))
  {
    if after + before != [] {
      var front := (after + before)[0];
      assert front in heads;
      forall other | other in queued && other in free
        ensures after == [] ==> !After(other, last)
        ensures Candidate(queued, free, last, other) ==> front.sequence <= other.sequence
      {
        var head := HeadFor(queued, free, heads, other);
        assert After(head, last) == After(other, last);
        if After(other, last) {
          FrontIsEarliest(after, head);
        } else if after == [] {
          FrontIsEarliest(before, head);
        } else {
          assert After(front, last);
        }
      }
    } else {
      forall run | run in queued
        ensures run !in free
      {
        if run in free {
          var head := HeadFor(queued, free, heads, run);
          assert false;
        }
      }
    }
  }

  lemma HeadFor(queued: seq<Run>, free: set<Run>, heads: seq<Run>, run: Run) returns (head: Run)
    requires LaneHeads(queued, free, heads) && run in queued && run in free
    ensures head in heads && head.repository == run.repository && head.sequence <= run.sequence
  {
    var k :| 0 <= k < |queued| && queued[k] == run;
    assert Covered(heads, queued[k]);
    head :| head in heads && head.repository == run.repository && head.sequence <= run.sequence;
  }

  /** A barrier is admitted only behind every earlier conflicting run of its lane, and no run passes an
      earlier barrier of its own worktree, so lands keep their submission order. */
  lemma LandsKeepOrder(active: seq<Run>, queued: seq<Run>, capacities: map<string, nat>, last: Option<nat>, chosen: Run,
                       passed: Run)
    requires Selects(queued, Free(active, queued, capacities), last, Some(chosen))
    requires passed in queued && passed.sequence < chosen.sequence && passed.repository == chosen.repository
    ensures !(passed.barrier && chosen.barrier)
    ensures passed.barrier || chosen.barrier ==> passed.worktree != chosen.worktree
  {
    var i :| 0 <= i < |queued| && queued[i] == passed;
    assert !Conflicts(chosen, queued[i]);
  }

  /** Queued work alone never blocks the queue: with nothing active and every request within capacity,
      something is admitted. */
  lemma IdleBrokerAdmits(queued: seq<Run>, capacities: map<string, nat>, last: Option<nat>, chosen: Option<Run>)
    requires InOrder(queued) && queued != []
    requires forall run, name :: run in queued && name in run.resources ==>
              run.resources[name] <= Units(capacities, name)
    requires Selects(queued, Free([], queued, capacities), last, chosen)
    ensures chosen.Some?
  {
    assert Unblocked(queued[0], [], queued, capacities);
    assert queued[0] in Free([], queued, capacities);
  }

  // ---------------------------------------------------------------- bounded bypass

  /** One selection: the queue and the unblocked runs at that moment, and what was selected. */
  datatype Round = Round(queued: seq<Run>, free: set<Run>, chosen: Run)

  ghost function LastBefore(rounds: seq<Round>, initial: Option<nat>, i: nat): Option<nat>
    requires i <= |rounds|
  {
    if i == 0 then initial else Some(rounds[i - 1].chosen.repository)
  }

  ghost predicate Waits(round: Round, run: Run) {
    run in round.queued && run in round.free && round.chosen != run
  }

  /** Nothing submitted up to `run` appears later in the queue, and a selected run does not return. */
  ghost predicate NothingEarlierArrives(earlier: Round, later: Round, run: Run) {
    forall other :: other in later.queued && other.sequence <= run.sequence ==>
        other in earlier.queued && other != earlier.chosen
  }

  ghost predicate RoundOk(round: Round, repositories: set<nat>, last: Option<nat>) {
    && InOrder(round.queued)
    && (forall other :: other in round.queued ==> other.repository in repositories)
    && Selects(round.queued, round.free, last, Some(round.chosen))
  }

  /** A schedule over a fixed set of repositories in which `run` stays queued and unblocked but is never selected. */
  ghost predicate Bypasses(rounds: seq<Round>, initial: Option<nat>, repositories: set<nat>, run: Run) {
    && (forall i :: 0 <= i < |rounds| ==>
        RoundOk(rounds[i], repositories, LastBefore(rounds, initial, i)) && Waits(rounds[i], run))
    && (forall i :: 0 < i < |rounds| ==> NothingEarlierArrives(rounds[i - 1], rounds[i], run))
  }

  ghost function Earlier(queued: seq<Run>, run: Run): set<Run> {
    set other | other in queued && other.sequence < run.sequence
  }

  ghost function Above(repositories: set<nat>, last: Option<nat>): set<nat> {
    if last.None? then {} else set repository | repository in repositories && repository > last.value
  }

  lemma SmallerSet<T>(a: set<T>, b: set<T>)
    requires a <= b
    ensures |a| <= |b|
    ensures a < b ==> |a| < |b|
  {
    assert b == a + (b - a);
    assert a < b ==> b - a != {};
  }

  /** How many more selections `run` can still be passed over. */
  ghost function Patience(repositories: set<nat>, queued: seq<Run>, run: Run, last: Option<nat>): nat {
    |repositories| * |Earlier(queued, run)| + |Above(repositories, last)|
  }

  /** Each selection that passes `run` over either takes an earlier-submitted run or strictly raises
      the repository served last. */
  lemma PatienceDrops(round: Round, repositories: set<nat>, last: Option<nat>, run: Run, later: seq<Run>)
    requires RoundOk(round, repositories, last) && Waits(round, run)
    requires forall other :: other in later && other.sequence <= run.sequence ==>
              other in round.queued && other != round.chosen
    ensures Patience(repositories, later, run, Some(round.chosen.repository)) < Patience(repositories, round.queued,
              run, last)
    ensures round.chosen.sequence < run.sequence || (last.Some? && last.value < round.chosen.repository)
  {
    var chosen := round.chosen;
    var before, after := Earlier(round.queued, run), Earlier(later, run);
    var lanes, nextLanes := Above(repositories, last), Above(repositories, Some(chosen.repository));
    if chosen.sequence < run.sequence {
      assert chosen in before && after <= before - {chosen};
      SmallerSet(after, before - {chosen});
      assert nextLanes <= repositories - {chosen.repository};
      SmallerSet(nextLanes, repositories - {chosen.repository});
      Multiply(|repositories|, |after|, |before| - 1);
    } else {
      var i :| 0 <= i < |round.queued| && round.queued[i] == chosen;
      var j :| 0 <= j < |round.queued| && round.queued[j] == run;
      assert chosen.sequence != run.sequence;
      assert !Candidate(round.queued, round.free, last, run);
      assert After(chosen, last);
      assert last.Some?;
      assert after <= before;
      SmallerSet(after, before);
      assert chosen.repository in lanes && chosen.repository !in nextLanes && nextLanes < lanes;
      SmallerSet(nextLanes, lanes);
      Multiply(|repositories|, |after|, |before|);
    }
  }

  lemma Multiply(factor: nat, a: nat, b: nat)
    requires a <= b
    ensures factor * a <= factor * b
    ensures factor * (b + 1) == factor * b + factor
  {
  }

  lemma {:induction false} BypassWithinPatience(rounds: seq<Round>, initial: Option<nat>, repositories: set<nat>,
                                                run: Run)
    requires |rounds| > 0 && Bypasses(rounds, initial, repositories, run)
    ensures |rounds| <= Patience(repositories, rounds[0].queued, run, initial)
  {
    var first := rounds[0];
    assert RoundOk(first, repositories, LastBefore(rounds, initial, 0)) && Waits(first, run);
    if |rounds| == 1 {
      PatienceDrops(first, repositories, initial, run, []);
    } else {
      var rest := rounds[1..];
      var served := Some(first.chosen.repository);
      forall i | 0 <= i < |rest|
        ensures RoundOk(rest[i], repositories, LastBefore(rest, served, i)) && Waits(rest[i], run)
      {
        assert LastBefore(rounds, initial, i + 1) == LastBefore(rest, served, i);
        assert RoundOk(rounds[i + 1], repositories, LastBefore(rounds, initial, i + 1));
      }
      forall i | 0 < i < |rest|
        ensures NothingEarlierArrives(rest[i - 1], rest[i], run)
      {
        assert NothingEarlierArrives(rounds[i], rounds[i + 1], run);
      }
      BypassWithinPatience(rest, served, repositories, run);
      assert NothingEarlierArrives(rounds[0], rounds[1], run);
      PatienceDrops(first, repositories, initial, run, rest[0].queued);
    }
  }

  /** An unblocked run among R repositories with e earlier-submitted queued runs is selected within
      R * (e + 1) selections. */
  lemma BoundedBypass(rounds: seq<Round>, initial: Option<nat>, repositories: set<nat>, run: Run)
    requires |rounds| > 0 && Bypasses(rounds, initial, repositories, run)
    requires initial.Some? ==> initial.value in repositories
    ensures |rounds| < |repositories| * (|Earlier(rounds[0].queued, run)| + 1)
  {
    BypassWithinPatience(rounds, initial, repositories, run);
    assert RoundOk(rounds[0], repositories, LastBefore(rounds, initial, 0)) && Waits(rounds[0], run);
    assert run.repository in repositories;
    var above := Above(repositories, initial);
    var ceiling := if initial.Some? then initial.value else run.repository;
    assert above <= repositories - {ceiling};
    SmallerSet(above, repositories - {ceiling});
    Multiply(|repositories|, 0, |Earlier(rounds[0].queued, run)|);
  }
}
